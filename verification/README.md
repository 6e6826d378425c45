# Session and authorization core of the RBAC dashboard client

This project models, in Dafny, the logic part of a Next.js admin dashboard that signs a user in against a
remote API, keeps the returned session token in one browser storage slot (`token`), and shows role-gated
cards over four resources (orders, riders, users, settings).

It models:

- **Token evaluation** (`Session`): `getRole`, `getTokenExpiration` and `isTokenExpired` of the dashboard
  page. The token decoder is a foreign library, so it is a parameter `decode: string -> Option<Claims>`;
  `None` means the decoder threw. `Claims` holds an optional `exp` and an optional `role`. `exp` is the
  NumericDate of section 4.1.4 of RFC 7519, in seconds. `Evaluate` is an independent reference
  classification (`Absent`, `Expired`, `Valid(role, expiresAtMs)`). The guards are stated against it.
- **Effects and the browser** (`Effects`): what the pages do, as values: `Notify`, `ClearToken`,
  `SetToken`, `Redirect` (replace or push), `ArmTimer` and `CancelTimer`. `Run` interprets a list of
  effects against a `World`. The world holds the storage slot, the pending timers with their callbacks,
  the location and the notifications. `Fire` is the browser firing a timer.
- **The two route guards** (`Guard`, `Dashboard`, `ProtectedRoute`): the mount effects of the dashboard
  page and of the protected-route wrapper, their effect cleanup, the logout button, and the auto-logout
  timer. Each guard is a small state machine: its state is the `role` (dashboard) or `loading` flag
  (wrapper) together with the timer ref. It is driven by events: re-running the effect (React runs the
  previous cleanup first), unmount, a timer firing, and logout. The invariant `Owns` says that every
  pending timer is the guard's own logout timer, held in its ref. It also says that none is pending
  without a registered cleanup. Every event preserves it, so at most one logout timer is ever pending, and
  none can fire after unmount.
- **Cards and permissions** (`Cards`): the six per-call-site edit/delete checks and the permission
  matrix they agree with, the admin-only card filter, the key-to-URL map of `fetchDetails`, the modal's
  state on click, settle and close, the row controls, and the singular label of the edit/delete alerts.
- **The login page** (`Login`, `Navigation`): the mount redirect, and the outcome of a submission. The
  outcome covers the token write, the choice of notice, and the loading flag. `Navigation` states how the
  two pages pass the browser to each other through the slot.

Clock readings and timer ids are parameters. The guards read the clock twice: once in the expiry check
(`checkNow`) and once for the timer delay (`armNow`). A `null` storage read (no browser) is the slot value
`None`. As in the code, an empty stored string is treated as no token.

Details of the code the model keeps:

- An empty stored string counts as no token, the same as `null`.
- An `exp` of `0` counts as a missing `exp`, so such a token is expired.
- Expiry compares the clock in milliseconds with `exp * 1000`.
- A missing `role` claim is returned as JavaScript `undefined`. Every consumer treats it exactly like
  `''`, so the model returns `""`.
- The delay is computed from a second clock reading, so it can be zero or negative if the clock passes
  the expiry instant between the two readings. With a single reading it is strictly positive
  (`Dashboard.DelayIsPositive`).
- The dashboard redirects on an empty role but keeps the token. The login page redirects any stored
  token to `/` without checking it. So a live token without a role sends the browser back and forth
  between the two pages until it expires (`Navigation.EmptyRoleBounces`).
- The wrapper never reads the role claim (`ProtectedRoute.IgnoresRole`).
- If the wrapper's effect re-runs and finds the token expired, `loading` stays `false` from the earlier
  run. Its children stay rendered while the redirect happens. From the first render, children appear
  exactly on the live path (`ProtectedRoute.RendersOnlyWhenLive`).

## Model

| member | source | states |
|---|---|---|
| `Session.GetRole` | src/app/page.tsx:9-17 | A non-empty role is always the role claim of a present, decodable token, and such a claim is returned unchanged. A null, empty or undecodable token yields `''`. |
| `Session.GetTokenExpiration` | src/app/page.tsx:19-28 | Defined exactly when the token is present, decodes, and has a non-zero `exp`. Its value is then `exp * 1000`, a non-zero multiple of 1000. |
| `Session.IsTokenExpired` | src/app/page.tsx:30-34 | Fails closed when there is no expiry. Otherwise the token is unexpired exactly when `now` is before the expiry instant. |
| `Session.Evaluate` | src/app/page.tsx:9-34 | Reference classification: `Absent` exactly for a falsy token. `Valid` only for a decodable token, with `now` before a whole-second expiry instant. |
| `Session.EvaluateAgrees` | src/app/page.tsx:9-34 | The page's three functions agree with `Evaluate`: unexpired iff `Valid`, and then role and expiry are the ones `Evaluate` reports. An absent token counts as expired. |
| `Session.ExpiryIsMonotone` | src/app/page.tsx:30-34 | Once a token is expired it stays expired at every later instant. |
| `Session.ExpiryBoundary` | src/app/page.tsx:30-34 | The expiry instant itself is expired, and the millisecond before it is not. |
| `Session.ExpiryIgnoresRole` | src/app/page.tsx:19-34 | Removing every role claim changes neither the expiry instant nor the verdict. |
| `Effects.Run` | src/app/page.tsx:47-66 | Only storage effects move the slot. Only timer effects move the pending timers. Only redirects move the location. Notifications are only appended. |
| `Effects.RunConcat` | src/app/page.tsx:47-66 | Running two effect lists in turn is the same as running their concatenation. |
| `Effects.Fire` | src/app/page.tsx:61-70 | A cleared or unknown timer fires nothing. A pending timer whose callback arms no timer is removed when it fires. |
| `Guard.ExpiredAtMount` | src/app/page.tsx:47-52 | The expired-at-mount effects neither touch timers nor write a token. |
| `Guard.ExpiryLogout` | src/app/page.tsx:62-66 | The timer callback neither touches timers nor writes a token. |
| `Guard.SignsOut` | src/app/page.tsx:47-66 | Each of the two lists, the expired-at-mount effects and the timer callback, empty the slot and land on `/login`. They leave the timers alone and append exactly their own error notice. |
| `Guard.ClearCurrent` | src/app/page.tsx:61 | It clears the timer the ref holds, if any, and does nothing else. |
| `Guard.Rearm` | src/app/page.tsx:58-67 | It neither writes storage, notifies nor redirects. A held timer is cancelled first, and nothing but that cancellation comes before the final arming of the logout timer with the given delay. |
| `Guard.Cleanup` | src/app/page.tsx:68-70 | It clears the held timer only if a cleanup was registered. The cleanup registration is consumed, and the ref keeps its stale handle. |
| `Guard.OwnsAtMostOne` | src/app/page.tsx:58-70 | A guard that owns the world's timers has at most one pending. |
| `Guard.CleanupClearsAll` | src/app/page.tsx:68-70 | After an owning guard's cleanup, no timer is pending, the slot is unchanged, and ownership still holds. |
| `Guard.RearmReplacesOwned` | src/app/page.tsx:61-66 | For an owning guard, even with its previous timer still pending, re-arming leaves exactly the new logout timer pending, and the guard owns it. |
| `Guard.RearmLeavesOne` | src/app/page.tsx:61-66 | From a world with nothing pending, re-arming leaves exactly the new logout timer pending, and the guard owns it. |
| `Guard.FireKeepsOwnership` | src/app/page.tsx:62-66 | Any firing keeps ownership. A pending timer runs the logout callback. |
| `Guard.FiringSignsOut` | src/app/components/ProtectedRoute.tsx:49-53 | When the owned timer fires, the slot is emptied and the browser is on `/login`. The "logged out" notice is added, and nothing is left pending. |
| `Guard.NothingLeftToFire` | src/app/components/ProtectedRoute.tsx:56-58 | Once no cleanup is registered, no firing has any effect. |
| `Dashboard.RunEffect` | src/app/page.tsx:41-67 | No token: only a silent redirect. Lapsed token: notify, clear, redirect, no timer. Live token: publish the role, redirect without clearing if the role is empty, then clear the old timer and arm one for `expiresAtMs - armNow`. No path writes a token. |
| `Dashboard.DelayIsPositive` | src/app/page.tsx:58-67 | On the live path the delay is `exp*1000 - armNow`. It exceeds `checkNow - armNow`, so it is strictly positive with a single clock reading. |
| `Dashboard.EmptyRoleKeepsToken` | src/app/page.tsx:53-67 | With a live token and an empty role, the page redirects to `/login`, does not clear the token, and still arms a timer. |
| `Dashboard.HandleLogout` | src/app/page.tsx:73-76 | Logout clears the token and pushes `/login`. It does not touch timers, notify or write a token. |
| `Dashboard.LogoutSignsOut` | src/app/page.tsx:73-76 | After logout the slot is empty and the location is `/login`. Timers and notifications are unchanged. |
| `Dashboard.RunLive` | src/app/page.tsx:53-67 | A live run from a world with nothing pending leaves exactly the new logout timer pending, owned by the page. |
| `Dashboard.RunDead` | src/app/page.tsx:42-52 | A run on an absent or lapsed token arms nothing and keeps ownership. |
| `Dashboard.RerunKeepsOwnership` | src/app/page.tsx:41-71 | Re-running the effect, which runs the previous cleanup first, keeps the page the owner. On a live token, exactly the new timer is pending afterwards. |
| `Dashboard.TransitionKeepsOwnership` | src/app/page.tsx:41-76 | Every event keeps ownership. A live re-run leaves exactly one timer pending, with delay `expiresAtMs - armNow`. Unmount leaves none. |
| `Dashboard.ReplayKeepsOwnership` | src/app/page.tsx:41-76 | Over any history of events, the page owns the pending timers, and at most one is pending. |
| `Dashboard.NoLogoutAfterUnmount` | src/app/page.tsx:68-70 | After any history that ends in unmount, nothing is pending, and no firing has any effect. |
| `Dashboard.FromMount` | src/app/page.tsx:36-71 | From the first mount in a world with no pending timer, every history keeps the page the sole owner of at most one pending logout timer. |
| `ProtectedRoute.GetTokenExpiration` | src/app/components/ProtectedRoute.tsx:6-15 | Defined exactly for a present, decodable token with a non-zero `exp`, and then equal to `exp * 1000`. |
| `ProtectedRoute.IsTokenExpired` | src/app/components/ProtectedRoute.tsx:17-21 | Fails closed: unexpired exactly when an expiry instant exists and `now` is before it. |
| `ProtectedRoute.CopiesAgree` | src/app/components/ProtectedRoute.tsx:6-21 | The wrapper's two functions equal the dashboard page's on every input. |
| `ProtectedRoute.RendersChildren` | src/app/components/ProtectedRoute.tsx:61-62 | Children are rendered exactly when `loading` is off, so the first render shows nothing. |
| `ProtectedRoute.RunEffect` | src/app/components/ProtectedRoute.tsx:32-59 | No token: a silent redirect. Lapsed token: notify, clear, redirect. In both cases `loading` is unchanged. Live token: re-arm the logout timer for `expiresAtMs - armNow` and set `loading` to false. `loading` turns off exactly on the live path and never turns back on. |
| `ProtectedRoute.RendersOnlyWhenLive` | src/app/components/ProtectedRoute.tsx:29-62 | From the first render, children are shown exactly when the token is unexpired at the check. |
| `ProtectedRoute.IgnoresRole` | src/app/components/ProtectedRoute.tsx:32-59 | Removing every role claim changes nothing the wrapper does. A live token without a role still shows the children. |
| `ProtectedRoute.RerunKeepsOwnership` | src/app/components/ProtectedRoute.tsx:32-59 | A re-run keeps the wrapper the owner of the pending timers. On a live token, exactly the new timer is pending. |
| `ProtectedRoute.TransitionKeepsOwnership` | src/app/components/ProtectedRoute.tsx:32-59 | Every event keeps ownership. A live re-run leaves exactly one timer pending. Unmount leaves none. |
| `ProtectedRoute.ReplayKeepsOwnership` | src/app/components/ProtectedRoute.tsx:27-62 | Over any history, at most one timer is pending and the wrapper owns it. Once the children are shown, they stay shown. |
| `ProtectedRoute.NoLogoutAfterUnmount` | src/app/components/ProtectedRoute.tsx:56-58 | After any history that ends in unmount, nothing is pending, and no firing has any effect. |
| `Cards.Can` | src/app/components/DashboardCards.tsx:40-45 | Admin may do everything. Only Admin may delete. Only Admin and Editor may edit. Editor may do everything but delete. |
| `Cards.CanEditOrder` | src/app/components/DashboardCards.tsx:40 | Editing orders is the matrix entry: allowed for Admin and Editor only. |
| `Cards.CanDeleteOrder` | src/app/components/DashboardCards.tsx:41 | Deleting orders is the matrix entry: allowed for Admin only. |
| `Cards.CanEditUser` | src/app/components/DashboardCards.tsx:42 | Editing users is the matrix entry: allowed for Admin and Editor only. |
| `Cards.CanDeleteUser` | src/app/components/DashboardCards.tsx:43 | Deleting users is the matrix entry: allowed for Admin only. |
| `Cards.CanEditRider` | src/app/components/DashboardCards.tsx:44 | Editing riders is the matrix entry: allowed for Admin and Editor only. |
| `Cards.CanDeleteRider` | src/app/components/DashboardCards.tsx:45 | Deleting riders is the matrix entry: allowed for Admin only. |
| `Cards.SameForEveryResource` | src/app/components/DashboardCards.tsx:40-45 | The matrix gives the same answer for orders, users and riders. |
| `Cards.DeleteImpliesEdit` | src/app/components/DashboardCards.tsx:40-45 | Whoever may delete may also edit. |
| `Cards.OtherRolesOnlyView` | src/app/components/DashboardCards.tsx:40-45 | Every other role, including `''`, may view but neither edit nor delete. |
| `Cards.Shown` | src/app/components/DashboardCards.tsx:172 | Admin sees every card and every role sees the cards open to all. An admin-only card is hidden from every other role. |
| `Cards.VisibleConcat` | src/app/components/DashboardCards.tsx:171-176 | Filtering a list is filtering its parts in turn, so the filter keeps the cards' order and neither repeats nor adds any. |
| `Cards.Visible` | src/app/components/DashboardCards.tsx:171-176 | The shown cards are exactly the given cards that are not admin-only, or all of them for Admin. Nothing is dropped when nothing is hidden. |
| `Cards.VisibleCardData` | src/app/components/DashboardCards.tsx:5-10 | Admin sees all four cards in declared order. Every other role sees orders, riders and users, in that order. |
| `Cards.ViewMatchesCards` | src/app/components/DashboardCards.tsx:171-176 | Viewing a resource is granted exactly when its card is visible. |
| `Cards.FetchUrl` | src/app/components/DashboardCards.tsx:16-33 | Each of the four keys requests `base + "/" + key`. Any other key makes no request. |
| `Cards.FetchUrlInjective` | src/app/components/DashboardCards.tsx:16-33 | Different keys request different URLs. |
| `Cards.EveryCardFetches` | src/app/components/DashboardCards.tsx:5-33 | Every declared card has a URL. |
| `Cards.ClickCard` | src/app/components/DashboardCards.tsx:53-58 | An admin-only card clicked by a non-Admin changes nothing and requests nothing. Otherwise the modal opens on the key, loading, with no details or error, and requests the key's URL. |
| `Cards.Settle` | src/app/components/DashboardCards.tsx:59-67 | Loading always ends and the selection is kept. A request-less key sets details to null. A reply sets the details. A failure sets the fixed error. |
| `Cards.ClickThenSettle` | src/app/components/DashboardCards.tsx:53-67 | A card the role may see ends selected and not loading. A reply shows its data with no error. A failure shows the error and no data. |
| `Cards.Close` | src/app/components/DashboardCards.tsx:70-74 | Closing clears the selection, details and error, and keeps the loading flag. |
| `Cards.CloseAfterSettle` | src/app/components/DashboardCards.tsx:59-74 | Closing a settled modal returns it to its initial state. |
| `Cards.RowControls` | src/app/components/DashboardCards.tsx:84-166 | A selection other than the three lists shows no row controls. |
| `Cards.ControlsFollowMatrix` | src/app/components/DashboardCards.tsx:84-166 | On each list, the edit and delete buttons shown are the matrix entries for its resource. |
| `Cards.ItemLabel` | src/app/components/DashboardCards.tsx:77-82 | The label is the selected key minus exactly its last character. It is `''` for `''`, and undefined when nothing is selected. |
| `Cards.LabelIsSingular` | src/app/components/DashboardCards.tsx:77-82 | On each list, the label is the singular resource name (`orders` gives `order`). |
| `Login.MountRedirect` | src/app/login/page.tsx:16-21 | It redirects to `/` exactly when a non-empty token is stored, and does nothing else. |
| `Login.BeginSubmit` | src/app/login/page.tsx:23-26 | Submitting turns loading on and clears the error. |
| `Login.FinishSubmit` | src/app/login/page.tsx:27-43 | Loading always ends. On success: store the returned token, send the success notice, and push `/`. On failure: exactly one non-empty error notice and nothing else. |
| `Login.Stored` | src/app/login/page.tsx:35 | The stored text is the returned token, or the text `undefined` when the `token` field is missing. |
| `Login.CaughtMessage` | src/app/login/page.tsx:34 | A thrown error keeps its message. A rejected response throws the server's non-empty message, or `Login failed` when it has none, so the message is never empty. |
| `Login.FailureNotice` | src/app/login/page.tsx:34-40 | A rejected response shows the server's message, or `Login failed` if there is none. A thrown error shows its message, or `Authentication failed` if it is empty. |
| `Login.SubmitWritesOnlyOnSuccess` | src/app/login/page.tsx:33-37 | The slot holds the returned token after a success and is unchanged otherwise. Timers are untouched, and a success lands on `/`. |
| `Login.LoadingBracketsSubmission` | src/app/login/page.tsx:25-42 | Loading is on while a submission is outstanding and off after either outcome. |
| `Navigation.EmptyRoleBounces` | src/app/page.tsx:53-55 | With a live token and no role, the dashboard lands on `/login` and keeps the token. The login page's mount check then redirects back to `/`. |
| `Navigation.ExpiredTokenSettles` | src/app/page.tsx:47-52 | A lapsed token is cleared, so the browser stays on `/login`. |

## Left out

- Decoding inside `jwtDecode`: it is a foreign library (base64url and JSON). The model takes the decoder as a parameter, and nothing checks signatures.
- `exp` and `role` claims of other JSON types: the model types `exp` as an optional integer and `role` as an optional string. Fractional, `NaN` and overflowing (`Infinity`) `exp` values are floating-point behaviour and are left out.
- Timer delay conversion: browsers convert a `setTimeout` delay to a 32-bit signed integer. A delay above 2^31-1 ms (about 24.8 days) fires at once. The model keeps the delay as an unbounded integer, so a token that lives longer than that is not modelled.
- `fetch` and responses: a login reply is the input `Outcome`, and resource payloads are opaque. A `token` field that is JSON `null` (stored as the text `null`) or of another JSON type is not modelled: the field is an optional string. `src/app/config/endpoint` is not part of this model, so `BASE_URL` is the parameter `base`.
- `localStorage`, `Date.now()` and `setTimeout`: these are the world's slot, the clock parameters, and the id parameter `newId`. Timer handles are positive, as browser ids are, so a held handle is truthy. A pending timer may fire at any event, whatever its `delay`: the delay is kept in the timer, but nothing schedules the firing by it.
- React scheduling, re-renders, `router` internals and toast rendering: only the emitted effects are kept. Each guard is assumed to be the only timer owner in the world. A reply that arrives after the modal was closed or re-opened is not modelled.
- The JSX list rendering (the `Array.isArray(details)` checks), styling, the password-visibility toggle and the form inputs: these are presentation only. `DashboardCard.tsx` and `layout.tsx` are pure markup.
- `Guard.ExpiredAtMount`: its own contract only says that it touches no timer and writes no token. What it does to the world is stated by `Guard.SignsOut`.
- `Guard.ExpiryLogout`: its own contract only says that it touches no timer and writes no token. What the callback does to the world is stated by `Guard.SignsOut` and `Guard.FiringSignsOut`.
- `Cards.RowControls`: its own contract only covers the non-list selections. The buttons on the three lists are stated by `Cards.ControlsFollowMatrix`.
