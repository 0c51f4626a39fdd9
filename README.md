# Session authentication with a TOTP second factor, in Dafny

This project models the authentication core of a small tide web application.
A visitor logs in with a password. The login stores a `Claims` record in the
server-side session. When the claims say the second factor is enabled, a
time-based one-time code (TOTP) must still be submitted. A route guard in
front of the `/account` routes decides on each request:

- send the visitor home,
- force a logout, or
- run the handler.

The guard uses a one-time marker in the session to tell a first visit with the
second factor pending from a repeated one. Two small in-memory stores sit
beside this core: a generic append-only `MemoryStore` and the user store's
credential lookup.

Modules, one per source file:

- `Crate` (src/main.rs): the `Claims` record and the `no_store` middleware.
- `Session` (src/request_ext.rs): the session map with its keys `"tide.uid"`,
  `"tide.totp-redirect"` and `"tmp"`, and the accessors and transitions on it.
- `Guard` (src/route_ext.rs): `AuthenticatedMiddleware` and `authenticated()`.
- `AuthRoutes` (src/routes/auth.rs): `POST /login` and `POST /otp`.
- `AccountRoutes` (src/routes/account.rs): the guarded `/account` routes.
- `Repos` (src/repos.rs) and `UserRepo` (src/repos/user.rs): the stores.
- `Forms` (the form records of src/routes.rs), `Http` (replies, flash
  messages, responses) and `Wrappers` (`Option`).
- `Flows`: serves requests one after another. It states the properties that
  only show across requests.

Each operation that changes the session comes in two forms. A function from
the old session to the new one carries the properties. A method on the
`Request` class performs the same steps in place, in the source's order, and
is proved to agree with the function. The handlers follow the same pattern.

How the surroundings are represented:

- The thread-local user table `USERS`, which `is_authenticated` consults by
  `uid`, is a `map<nat, User>` parameter. `validate_otp`'s `db.update` returns
  an updated map.
- The TOTP check of the `libreauth` crate is a parameter `isValid(secret, code)`.
- The freshly generated UUID secret of `update_otp` is a parameter.
- Body parsing yields either a parsed form or an error message.
- The `unwrap()` of the pending `"tmp"` secret in `validate_otp`
  (src/routes/account.rs:69) is the reply `Aborted` when the secret is missing.
  The other unwraps, of the claims (src/routes/account.rs:49, 78) and of the
  attached user (src/routes/account.rs:79), are `requires` clauses instead.
  The guard in front of these routes guarantees them (`Guard.GuardOutcome`,
  `Guard.GuardUser`).

Some of what the code does may be surprising. The model follows the code:

- While the second factor is pending, the guard lets the first request
  through to its handler, and only sets the marker. The second request is
  logged out. There is no redirect to a second-factor prompt.
- The claims carry an expiry `exp`, but nothing ever compares it with a
  clock. The `totp` instant is never compared with one either. Neither is
  modelled as expiring.
- A new password login always stores fresh claims with `totp_attempt` 0. So
  the counter only grows between logins (`Flows.ServeKeepsIdentity`).
- `authenticate_otp` checks codes against the fixed key `12345678901234567890`,
  not against the secret stored for the user.
- `validate_otp` panics (`Aborted`) when the form parses but no `"tmp"` secret is pending. A malformed form is redirected to `/account/update-2fa` whether or not a secret is pending.

## Model

| member | source | states |
|---|---|---|
| `Crate.WithNoStore` | src/main.rs:38-44 | afterwards Cache-Control is always present; an existing value is kept and the map is unchanged; otherwise exactly that header is added with `no-store, max-age=0`; no other header changes |
| `Crate.NoStoreIdempotent` | src/main.rs:38-44 | applying `no_store` twice equals applying it once |
| `Crate.NoStore` | src/main.rs:34-46 | the in-place middleware leaves the headers as `WithNoStore` of the old ones and the rest of the response unchanged |
| `Repos.FindFirst` | src/repos.rs:33 | `Iterator::find`: a returned position is the first element satisfying the test; `None` means no element satisfies it |
| `Repos.FindFirstAppend` | src/repos.rs:27-34 | appending keeps any earlier first match, and otherwise finds the new element exactly when it matches |
| `Repos.MemoryStore.constructor` | src/repos.rs:21-23 | `new` gives an empty cache |
| `Repos.MemoryStore.Insert` | src/repos.rs:27-30 | appends the item and returns it; without a duplicate-id check, every id found before still resolves to the same item; an item with an id can then be found by it |
| `Repos.MemoryStore.GetById` | src/repos.rs:32-38 | succeeds exactly when some cached item has the id, with the first such item in cache order; otherwise the NotFound error |
| `Repos.MemoryStore.List` | src/repos.rs:40-42 | returns the cache in insertion order |
| `UserRepo.GetId` | src/repos/user.rs:19-23 | a user's id is always present and is its `_id` |
| `UserRepo.NewUserStore` | src/repos.rs:21-23 | a user store starts empty and identifies users by `get_id` |
| `UserRepo.Authenticate` | src/repos/user.rs:29-40 | succeeds exactly when a cached user matches both username and password exactly; the result is the first such user and a member of the cache; every failure is the same NotFound error |
| `Session.ClaimsOf` | src/request_ext.rs:67-69 | claims are present exactly when `"tide.uid"` holds a claims value, and are that value |
| `Session.MarkerSet` | src/request_ext.rs:59 | the marker reads as set only when its entry is an integer in the i32 range; the value 1 that the marker is written with reads back as set |
| `Session.PendingSecret` | src/routes/account.rs:69 | the pending secret is present exactly when `"tmp"` holds a string |
| `Session.RequiresTotp` | src/request_ext.rs:45-48 | false without claims; with claims, true exactly when `totp_enabled` holds and `totp` is absent |
| `Session.RedirectCleared` | src/request_ext.rs:50-52 | the marker is gone and every other entry is kept |
| `Session.PreventOutcome` | src/request_ext.rs:54-65 | answers true exactly when the second factor is pending and the marker is set; sets the marker when pending; changes nothing when not pending or already marked; never touches the claims |
| `Session.PreventTwice` | src/request_ext.rs:54-65 | with the second factor pending and no marker, two calls answer false then true |
| `Session.LoggedIn` | src/request_ext.rs:71-74 | afterwards the claims are exactly the given ones, the marker is gone, the second factor is pending exactly when the claims say so, and every other key (`"tmp"` included) is kept |
| `Session.LogoutEmpties` | src/request_ext.rs:76-78 | after logout there are no claims, no marker, no pending secret, no entry at all, and nothing is pending |
| `Session.CheckAuthenticated` | src/request_ext.rs:20-35 | true exactly when there are claims whose uid has a user; then the session is untouched and that user is attached; no claims: false and untouched; unknown uid: false and the session destroyed |
| `Session.Request.ClearTotpRedirect` | src/request_ext.rs:50-52 | the in-place removal agrees with `RedirectCleared` |
| `Session.Request.PreventTotpRedirect` | src/request_ext.rs:54-65 | the in-place version answers and leaves the session as `PreventOutcome` |
| `Session.Request.Login` | src/request_ext.rs:71-74 | clearing the marker and then inserting the claims agrees with `LoggedIn` |
| `Session.Request.Logout` | src/request_ext.rs:76-78 | the session is destroyed |
| `Session.Request.IsAuthenticated` | src/request_ext.rs:20-35 | answers and leaves the session as `CheckAuthenticated`; attaches the user only when it answers true |
| `Guard.GuardOutcome` | src/route_ext.rs:24-39 | every short-circuit is a plain redirect to `/`; the handler runs exactly when the request is authenticated and not a repeated visit with the second factor pending; a turned-away request without claims keeps its session, one with claims ends logged out; a passed request keeps its claims, and its session changes only by the marker, which is set exactly when the second factor is pending; with nothing pending a passed request changes nothing |
| `Guard.GuardUser` | src/request_ext.rs:23-26 | a request the guard lets through carries the user stored for its uid |
| `Guard.AuthenticatedMiddleware.Handle` | src/route_ext.rs:24-39 | the step-by-step middleware agrees with `GuardOutcome` and attaches the user when it runs the handler |
| `Guard.Route.With` | src/route_ext.rs:12 | appends one middleware to the route |
| `Guard.Route.Authenticated` | src/route_ext.rs:11-14 | attaches the guard and returns the same route |
| `Guard.Route.Nest` | src/routes/account.rs:14-21 | nests the given paths under the route |
| `AuthRoutes.LoginOutcome` | src/routes/auth.rs:13-42 | always redirects to `/`; exactly foo/bar logs in with uid 1, `totp_enabled` true, attempt 0 and no `totp`, and clears the marker; anything else leaves the session unchanged and queues an error (`invalid credentials`, or the parse error) |
| `AuthRoutes.Attempted` | src/routes/auth.rs:58-60 | one attempt adds exactly 1 to the counter and sets `totp` to 10000000000 if valid, else to none; the identity fields are kept |
| `AuthRoutes.OtpOutcome` | src/routes/auth.rs:44-80 | always redirects to `/`; when not authenticated or nothing is pending, only `is_authenticated`'s effect remains; a malformed form changes nothing; a parsed code logs in again with one more attempt, clears the marker, and leaves the second factor pending exactly when the code is invalid, with the `invalid otp` error |
| `AuthRoutes.OtpKeepsIdentity` | src/routes/auth.rs:57-67 | claims after `/otp` existed before, belong to the same identity, and their attempt counter did not decrease |
| `AuthRoutes.Authenticate` | src/routes/auth.rs:13-42 | the in-place handler agrees with `LoginOutcome` |
| `AuthRoutes.AuthenticateOtp` | src/routes/auth.rs:44-80 | the in-place handler agrees with `OtpOutcome` |
| `AccountRoutes.Configure` | src/routes/account.rs:12-22 | `/account` carries the guard and nests all four account routes |
| `AccountRoutes.Logout` | src/routes/account.rs:24-27 | the session is destroyed and the reply redirects to `/` |
| `AccountRoutes.PendingStored` | src/routes/account.rs:40-41 | `"tmp"` now holds the new secret and nothing else changes |
| `AccountRoutes.UpdateOtp` | src/routes/account.rs:33-63 | the handler overwrites `"tmp"` with the fresh secret and renders the enrollment page |
| `AccountRoutes.EnrollOutcome` | src/routes/account.rs:65-100 | only a code valid for the pending secret changes anything: the user at the claims' uid gets `totp_enabled` and that secret, other users are untouched, `"tmp"` is removed, and the reply is `/account/settings` with an info flash; otherwise session and users are unchanged, with an `invalid code` or parse-error redirect to `/account/update-2fa`, or an abort when no secret is pending |
| `AccountRoutes.ValidateOtp` | src/routes/account.rs:65-100 | the in-place handler agrees with `EnrollOutcome` |
| `Flows.AccountHandler` | src/routes/account.rs:14-19 | no account handler but logout changes the claims, and none but logout touches any session entry other than `"tmp"` (the marker is kept); logout destroys the session |
| `Flows.Serve` | src/routes/auth.rs:8-11 | login and OTP requests never change the user table |
| `Flows.AnonymousIsTurnedAway` | src/route_ext.rs:25-30 | a request without claims to an account route is redirected to `/`, with no handler run and nothing changed |
| `Flows.ClaimsOnlyAfterLogin` | src/routes/auth.rs:17-29 | from a session without claims, claims exist after a run of requests only if the run contained a foo/bar login |
| `Flows.ServeKeepsIdentity` | src/routes/auth.rs:57-67 | any request except a password login keeps the claims' identity and never lowers the attempt counter |
| `Flows.SecretStoredOnlyWhenConfirmed` | src/routes/account.rs:69-92 | the user table changes only on a confirmation with a valid code, and the stored secret is the pending one |
| `Flows.PendingSecondFactorTwice` | src/route_ext.rs:32-38 | after the password login the first account request runs its handler and sets the marker; the next account request is logged out, redirected to `/`, and the session is empty |
| `Flows.SecondFactorSatisfied` | src/routes/auth.rs:57-62 | login and then a valid code give one attempt and nothing pending, and account requests pass the guard repeatedly with nothing changed |
| `Flows.FailedCodesAreCounted` | src/routes/auth.rs:63-71 | n invalid codes in a row raise the counter by exactly n and leave the second factor pending; there is no lockout |
| `Flows.ThreeFailuresNoLockout` | src/routes/auth.rs:63-71 | login and then three invalid codes leave attempt 3 with the second factor still pending |

## Left out

- `AuthRoutes.Attempted`: `totp_attempt` is a `usize` and `totp_attempt + 1` could overflow. The counter is unbounded here, because overflow needs 2^64 requests in one session.
- `Crate.Claims`: the widths u64/usize of `uid`, `exp`, `totp_attempt` and `totp` are not modelled. They are unbounded naturals.
- `Crate.WithNoStore`: header names are compared as exact strings. Case-insensitive header-name matching is not modelled. `no_store` is also never registered on the app in `main()`, so it is not part of `Flows.Serve`.
- `Session.Request.Login`: the serialisation error that `insert` can return is not modelled, since a `Claims` always serialises. The session stores values verbatim.
- `Session.Request.Logout`: `destroy()` is modelled as emptying the session at once. The store deletes the record only when the response completes. None of the modelled handlers reads the session after `logout`; `index` (src/routes.rs:98-99, not part of this model) renders `claims()` after `is_authenticated` may have logged out, and so can still see the old claims.
- `Session.MarkerSet`: the `i32` read succeeds for any integer entry in the i32 range. How serde would read other JSON numbers is not modelled. The marker is only ever written as 1.
- `request_ext.rs` `user()` and `db()`: `user()` is the `user` field of `Request`. `db()` opens a MongoDB collection (I/O).
- `Forms.TotpCheck`, `Flows.Run`: one `isValid` serves a whole run, so a code's validity cannot change between requests. `libreauth`'s check depends on the clock, and the clock is abstracted away.
- The TOTP computation (`libreauth`), QR/SVG rendering (`qrcode`) and UUID generation (`uuid`) are foreign calls. They appear as the parameter `isValid` and the parameter `freshSecret`.
- `settings` and the page content of `update_otp` render Handlebars templates. They are modelled only as the page name.
- `AccountRoutes.UpdateOtp` requires claims. The source unwraps them, and the guard in front guarantees them (`Guard.GuardOutcome`). `AccountRoutes.ValidateOtp` likewise requires claims and the attached user, but only when the code is valid.
- The `USERS` table and its `update` are defined in neither registry.rs nor repos.rs. They are a map keyed by uid, and `update` is a map update that always succeeds.
- `Flows.Serve`: a handler that panics (`Aborted`) keeps the session the model computed. Whether tide saves a session after a panic is not modelled.
- src/routes.rs handlers other than `index`: older copies of the handlers that no longer match the current `Claims` (src/routes.rs:116-121 omits the `totp_*` fields).
- `index` (src/routes.rs:97-103), the `/` page: it calls `is_authenticated` and renders `login.html` or `index.html`. It is left out as rendering.
- `Flows.Serve`: `main()` mounts `routes::configure` (src/main.rs:64, src/routes.rs:22-35), which sends `/` to `index`, mounts the older src/routes.rs handlers and has no `/otp` route. Nothing calls `auth::configure` (src/routes/auth.rs:8-11) or `account::configure` (src/routes/account.rs:12-22). `Serve` assumes that these two functions are the application's routing, with the guard of src/route_ext.rs in front of `/account`.
- src/templates.rs, src/render_context.rs, src/registry.rs and `main()`: HTTP plumbing, rendering, database clients and configuration (I/O).
- Redis session storage, cookies, flash middleware and logging are I/O. Concurrent requests on one session are outside a per-request model.
