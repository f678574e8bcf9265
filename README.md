# Client-side user session: a Dafny model

This project models the session lifecycle of `ClientSideUserSession` (session.js).
The object caches one login fact in a key-value store that every tab of the
same origin shares. The store holds six keys: `session-timestamp`,
`session-username`, `session-established`, `session-locked`,
`session-signin-location` and `session-signin-timestamp`. The object itself
holds two fields, `timestamp` and `username`. The model covers:

- the constructor's configuration checks, and the fields it seeds from the store;
- `evaluate`, which serves the cached record, or flushes and asks the server, or asks the server directly;
- `flushStore`;
- `loadFromServer`, with its lock back-off and the two completions of the `ident` request;
- the resume navigation in `onEstablished`;
- the sign-in click, the logout click and its success handler, and `reevaluate`.

Files:

- `values.dfy` (module `Values`): the JavaScript values the store hands back, with truthiness and numeric coercion. A coercion that yields NaN is `None`.
- `store.dfy` (module `KeyValueStore`): the six keys, get-with-default (`Lookup`), and the store adapter as a class `Store` whose `entries` map the methods update.
- `session_logic.dfy` (module `SessionLogic`): each transition as a function. It takes a snapshot (store entries, `timestamp`, `username`) and returns the new snapshot and the effects. Effects are a request (`RequestIdent`, `RequestLogout`), a timer (`ScheduleEvaluate(delay)`), the `onEstablished` notification (`Established(username)`) or a navigation (`Navigate(location)`). The contracts of these functions state the lifecycle's promises.
- `session.dfy` (module `Session`): the class `ClientSideUserSession`. Its methods read and write the `Store` object the way session.js does. Each method is proved to leave the object and the store exactly as the matching `SessionLogic` function says.
- `traces.dfy` (module `SessionTraces`): runs made of any sequence of events, and facts proved by induction over them.

Inputs the source takes from the browser are parameters: the clock (`now`) and
the page address (`href`). A `#auth` fragment is a suffix test on `href`,
because JavaScript's `$` without the `m` flag anchors at the end of the input.

Behaviour of session.js that the model keeps:

- The resume test is strict: navigation needs `now - signin-timestamp < timeout`.
- The stored timestamp can go down: `flushStore` resets it to 0.
- No code path sets `session-locked` to true. Every write is `false`, so the lock never excludes another tab (`SessionTraces.LockNeverTaken`).
- The fresh-login and expiry branches flush before `loadFromServer`, and the flush clears any lock a foreign writer set. Only the unestablished branch ever honours the lock.
- When the server answers without a user, the success handler writes `undefined` into `session-username` instead of leaving the key alone.
- A `null` user from the server is stored as `null`, which `onEstablished` does not treat as `undefined`. The tab then counts as signed in and may navigate back (`SessionTraces.NullUserCountsAsSignedIn`).
- The failure handler leaves `session-username` untouched. The in-memory handle can therefore disagree with the store (`SessionTraces.FailureKeepsStoredName`).
- Construction also fails when no `openid` option is given, because `renderOpenId` reads `this.openid.provider` before the first `evaluate`.
- There is no timer cancellation.

## Model

| member | source | states |
|---|---|---|
| Session.ValidateOptions | session.js:31-39 | construction succeeds iff url is truthy and a store, a transport and an `openid` object are given; otherwise the first missing one, in the order url, store, ajax, openid (the throw of session.js:94), is the error; the timeout defaults to 180000 |
| Session.ClientSideUserSession.Create | session.js:29-56 | a failed check, including a missing `openid`, returns the error with no effect and the store unchanged; otherwise a fresh session whose first `evaluate` runs on the seeded fields |
| Session.ClientSideUserSession.constructor | session.js:42-51 | copies url, store and timeout; `timestamp` is the stored timestamp or 0, `username` the stored name or undefined |
| SessionLogic.Evaluate | session.js:155-195 | `#auth` flushes and sends exactly one `ident` whatever the store held (any lock is cleared by the flush); an established record older than timeout (strict `>`) is flushed and revalidated the same way; a record within timeout sends no request, copies the stored timestamp and name into the fields, notifies and schedules one re-evaluation after timeout; an unestablished record is not flushed and gets `ident` or, when locked, one 100 ms retry |
| Session.ClientSideUserSession.Evaluate | session.js:155-195 | the new store, fields and effects are those of `SessionLogic.Evaluate` on the old ones |
| SessionLogic.Flush | session.js:198-205 | timestamp 0, locked false, established false, username absent, every other key (the sign-in intent included) unchanged |
| SessionLogic.FlushIdempotent | session.js:198-205 | flushing a flushed store changes nothing |
| Session.ClientSideUserSession.FlushStore | session.js:198-205 | the store becomes `Flush` of the old store |
| SessionLogic.LoadFromServer | session.js:208-222 | exactly one effect: `ident` iff the lock is not `true`, otherwise one re-evaluation after 100 ms |
| Session.ClientSideUserSession.LoadFromServer | session.js:208-222 | returns the effect of `SessionLogic.LoadFromServer` on the current store and changes nothing |
| SessionLogic.OnIdentSuccess | session.js:226-240 | `session-established` is `true`, `session-locked` is `false`, stored and in-memory timestamp both `now`, the response's name in the store and the field, no other key touched; effects: notification, navigation iff `ResumesNavigation`, one re-evaluation after timeout |
| Session.ClientSideUserSession.OnIdentSuccess | session.js:226-240 | the new store, fields and effects are those of `SessionLogic.OnIdentSuccess` |
| SessionLogic.OnIdentFailure | session.js:244-256 | the same record as success except that `session-username` is left as it was and the field becomes undefined; effects: notification without user, one re-evaluation after timeout, never a navigation |
| Session.ClientSideUserSession.OnIdentFailure | session.js:244-256 | the new store, fields and effects are those of `SessionLogic.OnIdentFailure` |
| SessionLogic.OnEstablished | session.js:265-290 | always the notification first; a navigation to the saved location follows iff the user is defined, the address ends in `#auth`, a sign-in time is saved and `now` minus it is below timeout (strict), and a non-empty location is saved |
| Session.ClientSideUserSession.OnEstablished | session.js:265-290 | returns the effects of `SessionLogic.OnEstablished` and changes nothing |
| SessionLogic.SignInClick | session.js:131-134 | saves the address and the in-memory timestamp (not the clock) under the two intent keys; nothing else changes |
| Session.ClientSideUserSession.SignInClick | session.js:131-134 | the store becomes that of `SessionLogic.SignInClick` |
| Session.ClientSideUserSession.LogoutClick | session.js:136-141 | the click only sends the `logout` request |
| SessionLogic.Reevaluate | session.js:309-312 | flush then evaluate always ends in a flushed store and exactly one `ident` request, whatever the lock or the address |
| Session.ClientSideUserSession.Reevaluate | session.js:309-312 | the new state and effects are those of `SessionLogic.Reevaluate` |
| Session.ClientSideUserSession.OnLogoutSuccess | session.js:142-144 | a successful logout is a `reevaluate` |
| SessionTraces.LockNeverTaken | session.js:208-213 | along any run from an unlocked store the lock stays unset and the 100 ms back-off never fires (timeout not 100) |
| SessionTraces.NoStaleIdentityAlongRun | session.js:198-256 | along any run, a record that is not established holds no username, if that held at the start |
| SessionTraces.IntentOnlyFromSignIn | session.js:131-134 | along any run without a sign-in click, the saved location and sign-in time are unchanged |
| SessionTraces.ServerAnswerIsCached | session.js:168-186 | after a server answer at t, `evaluate` within timeout on a page without `#auth` sends nothing and reports the same user |
| SessionTraces.ResumeAfterSignIn | session.js:280-287 | sign-in click, then the `#auth` page, then a user from the server: one `ident`, the notification, navigation back to the saved address, one re-evaluation |
| SessionTraces.FirstLoadScenario | session.js:218-240 | empty store: one `ident`; the answer "alice" at 1000 leaves timestamp 1000, username alice, established true, locked false |
| SessionTraces.ExpiredRecordScenario | session.js:171-177 | a record 200000 ms old with timeout 180000 is flushed and revalidated once |
| SessionTraces.NullUserCountsAsSignedIn | session.js:265-287 | a `null` user from the server is kept as `null`, counts as signed in, and triggers the navigation back when the resume conditions hold |
| SessionTraces.FailureKeepsStoredName | session.js:244-256 | a failure after a success clears the field but keeps the stored name, and the next cache hit reports that name |

## Left out

- Rendering: the login panel, its CSS, the OpenID script, `toggleContext` and the label text with `${username}`. These are page output with no effect on the session record.
- The option copy loop and `$.extend`/`$.proxy`. Options are a record, and the checked configuration keeps url, store and timeout. The transport and the `openid` object are reduced to whether they were given (an `openid` value of `false` or `0`, which does not throw, counts as given). The panel and language options, and what `renderOpenId` does with a given `openid`, are not modelled.
- `console` logging.
- The transport. Each request is an emitted effect, and each completion is a separate method. A failed logout has no handler in the source, so it has no method here.
- `window.setTimeout` and the clock. Timers are `ScheduleEvaluate(delay)` effects. The time is the `now` parameter, and one call uses one value of it.
- The assignment to `document.location.href`. It is a `Navigate(location)` effect.
- Interleavings between tabs. Each run models one tab; another tab's writes are only a different starting store.
- String and number coercion of timestamps. The source stores them with `toString()`, and every reader coerces them back by subtraction. The model stores them as numbers, so no outcome changes. A string from another writer coerces to NaN here, not to the number JavaScript would parse from it.
- The dependency checks on jQuery and `console` made when the script loads. They happen before any session exists.
