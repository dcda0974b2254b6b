# xstate-viz application machine, modelled in Dafny

This project models the state logic of the visualizer application in `src/App.tsx`. It has three parts:

- **`appMachine`** is the parallel statechart. It has two regions:
  - `auth`: `checkingCode`, `authorizing`, `gettingUser`, `authorized` (with its `gist` sub-region `idle.{default,patched,posted}`, `patching`, `posting`), `unauthorized` and `pendingAuthorization`;
  - the document region: `checking`, `fetching`, `idle` and `loaded`.

  The model handles the events `CODE`, `LOGIN`, `LOGOUT` and `GIST.SAVE`. It also handles the done and error outcomes of every invoked service, and the expiry of the two 1000 ms `after` timers.
- **`createAuthActor`** is the one-slot mailbox that carries the OAuth code from the login popup to the statechart.
- **`layoutReducer`** toggles the editor pane.

## Modules

- `Wrappers` (`wrappers.dfy`): an `Option` type.
- `AppMachine` (`app_machine.dfy`) models the statechart.
  - **Data.** The machine's context, its configuration (one leaf per region), its events and its observable effects.
  - **`Step`** is one event. The `auth` leaf's own transitions are tried first. Then the handlers of the enclosing states are tried: `GIST.SAVE` on the `gist` node, `LOGOUT` on `authorized`, `LOGIN` on `auth`. Then the document region reacts.
  - **`Eventless` and `Settle`.** `Eventless` is one round of `''` (eventless) transitions. `Settle` applies rounds until none is enabled. `Macrostep` is a step followed by settling.
  - **`Startup`** is the initial macrostep. **`Run`** drains an event queue in FIFO order. An event that an action `send`s to the machine goes to the back of the queue.

  Effects are returned as a list in the order they happen: transition actions first, then the entry actions and service invocations of the states entered. They are notifications, `alert`, `window.open`, `updateQuery` and service starts.
- `AppMachineProperties` (`app_machine_properties.dfy`): what the statechart guarantees, stated over `Macrostep` and `Run`.
- `AuthActor` (`auth_actor.dfy`): the mailbox as a class `Mailbox` whose methods overwrite its two variables. It is specified by the value-level `Slot` and by a trace semantics (`Replay`) with its lemmas.
- `Layout` (`layout.dfy`): the reducer and its lemmas.

The guard on `GIST.SAVE` tries to compile the machine source (`toMachine`, then `getEdges`). It is a parameter, `validate: Option<string> -> Option<string>`. `None` means the source is valid; `Some(m)` means compiling it threw an error with message `m`. Every lemma holds for every validator.

JavaScript truthiness of an optional string (`!!ctx.token`, `query.gist || undefined`, `if (code)`) is modelled as "present and non-empty".

## Model

| member | source | states |
|---|---|---|
| AppMachine.EnterGist | src/App.tsx:340-375 | Entering a `gist` sub-state does at most one thing. Only `patching` and `posting` do anything on entry, and what they do is start a save request. |
| AppMachine.EnterAuth | src/App.tsx:269-440 | Entering an `auth` leaf does at most one thing. `checkingCode`, `unauthorized` and a non-saving `authorized` do nothing. Only entering `pendingAuthorization` opens the login window. |
| AppMachine.EnterDoc | src/App.tsx:449-484 | Entering a document leaf does at most one thing. `checking` and `idle` do nothing. The fetch of `query.gist` starts exactly on entering `fetching`. |
| AppMachine.GistOn | src/App.tsx:321-407 | Every `gist` sub-state handles `GIST.SAVE`. It is the node's handler. Every other event is handled exactly by its owner: `patching` handles the patch outcomes, `posting` its done event, and `patched`/`posted` the timer. The next sub-state is `patching` or `posting` exactly for a valid save. A successful post is the only change to the context, and it stores the new id. |
| AppMachine.AuthorizedOn | src/App.tsx:317-419 | A transition inside `authorized` raises nothing. It keeps the document region, the query and the flag. `LOGOUT` always leads to `unauthorized`, and it is the only way out of `authorized`. A save target that is already active is not re-entered: a save that stays in its sub-state starts no service. |
| AppMachine.AuthLeafOn | src/App.tsx:245-441 | `checkingCode` handles no event. A leaf's transition raises nothing and keeps the document region and the query. Only a save in `unauthorized` changes `pendingSave`: it leads to `pendingAuthorization`. |
| AppMachine.AuthOn | src/App.tsx:442-444 | `LOGIN` from every leaf leads to `pendingAuthorization` and keeps the context. When `pendingAuthorization` is already active it is not re-entered, so `LOGIN` has no effect there. Only a save in `unauthorized` changes `pendingSave`. The document region is untouched. |
| AppMachine.DocOn | src/App.tsx:459-481 | The document region reacts exactly in `fetching`. It reacts to a fetched gist that has a `machine.js` and to a fetch error. A gist without `machine.js` is not taken, because reading its content throws. Nothing is raised, and the `auth` region, the query and the flag are kept. |
| AppMachine.Step | src/App.tsx:241-487 | An event, before the eventless transitions that follow it, never makes the machine send an event to itself. It never changes the query. It never yields an `authorized` state with a pending save unless the flag was already set. |
| AppMachine.AuthEventless | src/App.tsx:245-384 | The `auth` region has an eventless transition exactly in `checkingCode` and in `authorized` with a save pending. From `checkingCode` it goes to `authorizing`, `gettingUser` or `unauthorized`, and raises nothing. The document region and the query are kept. |
| AppMachine.DocEventless | src/App.tsx:449-456 | The document region has an eventless transition exactly in `checking`. It ends in `fetching` exactly when `query.gist` is truthy, and in `idle` otherwise. It changes neither the context nor the other region. |
| AppMachine.Eventless | src/App.tsx:245-456 | One eventless round is enabled exactly when the state is not settled. Each round removes at least one pending eventless transition, so settling terminates. The query is never changed. A round raises an event only in one case: the deferred-save replay from `authorized`. That round sends exactly one `GIST.SAVE` with no code and clears `pendingSave`. |
| AppMachine.Settle | src/App.tsx:377-384 | Settling always ends in a settled state, and the query is unchanged. It only appends to the events and effects it was given. It raises at most one event, and only as the payload-less save replay from `authorized` with `pendingSave` set; that replay clears the flag. |
| AppMachine.Macrostep | src/App.tsx:241-487 | A whole macrostep ends settled, keeps the query, and keeps the step's effects as a prefix. It sends itself at most one event: the payload-less `GIST.SAVE` replay. It does so only when a save was pending, and it clears the flag. |
| AppMachine.InitialContext | src/App.tsx:222-229 | The initial context holds the query and the environment token. It has the omni example, no user and no pending save. Its gist id is `query.gist` when that is truthy and absent otherwise, so it is never the empty string. |
| AppMachine.Startup | src/App.tsx:220-240 | Starting the machine ends settled, with the query kept and nothing sent to itself. The first effect is the start of the code listener. |
| AppMachine.Run | src/App.tsx:377-384 | Draining any queue terminates, even though the replayed save is appended to the queue. The query is kept. |
| AppMachineProperties.MacrostepFromSettled | src/App.tsx:304-316 | From a settled state, one event triggers at most one eventless transition: the save replay, when the user record arrives with a save pending. Otherwise the macrostep is the plain step. |
| AppMachineProperties.StartupRouting | src/App.tsx:220-267 | Startup routing is first-match. A truthy `query.code` leads to `authorizing`. Otherwise a truthy token leads to `gettingUser`. Otherwise the machine goes to `unauthorized` with the light example. The document region fetches exactly when `query.gist` is truthy. The initial context matches the source, and the exact list of started services is given. |
| AppMachineProperties.AuthorizingDone | src/App.tsx:292-297 | A successful code exchange leads to `gettingUser` and stores the returned access token. The user lookup is started with that token. |
| AppMachineProperties.AuthorizingError | src/App.tsx:298-301 | A failed code exchange leads to `unauthorized`. It alerts the error and leaves the context unchanged. |
| AppMachineProperties.GettingUserDone | src/App.tsx:307-313 | The user record leads to `authorized`, with the gist sub-region in `idle.default`, and stores the user. A deferred save is replayed exactly once, without a code. |
| AppMachineProperties.GettingUserError | src/App.tsx:314 | A failed user lookup leads to `unauthorized`, with no other change. |
| AppMachineProperties.SaveWhileUnauthorized | src/App.tsx:423-426 | `GIST.SAVE` in `unauthorized` sets `pendingSave`, leads to `pendingAuthorization` and opens the login window. Nothing else changes. |
| AppMachineProperties.SaveDroppedWhileSigningIn | src/App.tsx:269-316 | A save in `authorizing`, `gettingUser` or `pendingAuthorization` is dropped: the state is unchanged and nothing happens. |
| AppMachineProperties.CodeWhilePending | src/App.tsx:437-439 | `CODE` in `pendingAuthorization` leads to `authorizing`, and the exchange is started with that very code. |
| AppMachineProperties.CodeElsewhereIgnored | src/App.tsx:245-440 | `CODE` in any other `auth` state changes nothing. |
| AppMachineProperties.LoginFromAnywhere | src/App.tsx:442-444 | `LOGIN` from every `auth` leaf, `authorized` included, leads to `pendingAuthorization` and keeps the context. It opens the login window unless `pendingAuthorization` was already active: the target is internal, so it is not re-entered. |
| AppMachineProperties.LogoutOnlyWhenAuthorized | src/App.tsx:410-417 | `LOGOUT` in `authorized` leads to `unauthorized` and clears the token and the user. In every other state it does nothing. |
| AppMachineProperties.PendingSaveReplay | src/App.tsx:377-384 | The targetless eventless transition clears the flag and sends one `GIST.SAVE` without a code. It does not move the gist sub-state, and it fires only once. |
| AppMachineProperties.DeferredSaveCycle | src/App.tsx:420-440 | A save while signed out is followed by the code, the token and the user. This holds whether or not an earlier deferred save is still flagged. Whatever is queued behind them, the result is the signed-in state with the flag cleared and one replayed save at the back of the queue. The login window, the exchange and the user lookup are the effects, in that order. |
| AppMachineProperties.SignInCycle | src/App.tsx:269-316 | With a save pending, the code, the token and the user record lead through `authorizing` and `gettingUser` to `authorized`. The replay goes to the back of the queue. |
| AppMachineProperties.TokenCycle | src/App.tsx:292-313 | With a save pending, the token and then the user record lead to `authorized`, with the replay queued last. |
| AppMachineProperties.SaveLink | src/App.tsx:423-426 | Processing a queue headed by a save in `unauthorized` opens the login window, then processes the rest from `pendingAuthorization`. |
| AppMachineProperties.CodeLink | src/App.tsx:437-439 | Processing a queue headed by the code in `pendingAuthorization` starts the exchange, then processes the rest from `authorizing`. |
| AppMachineProperties.TokenLink | src/App.tsx:292-297 | Processing a queue headed by the token in `authorizing` starts the user lookup, then processes the rest from `gettingUser`. |
| AppMachineProperties.UserLink | src/App.tsx:377-384 | Processing a queue headed by the user record with a save pending is the same as processing the rest from `authorized`, with the replay appended. |
| AppMachineProperties.SaveRaisesNothing | src/App.tsx:385-406 | From a settled state, `GIST.SAVE` never makes the machine send an event to itself. |
| AppMachineProperties.SaveDispatch | src/App.tsx:385-406 | `GIST.SAVE` in `authorized`, from every gist sub-state, is first-match. An invalid machine goes to `idle` with the "Failed to save machine" error notification carrying the thrown message. Otherwise the save goes to the known gist, `/gists/<id>`, with the saved code. Otherwise a new gist is posted to `/gists`. The request starts on entering `patching` or `posting`, so none starts when that state is already active. The context never changes. |
| AppMachineProperties.SaveRequestsNeedValidSave | src/App.tsx:340-406 | Every save request to GitHub comes from a valid `GIST.SAVE` while `authorized`. It goes to the existing gist, `/gists/<id>`, exactly when the gist id is truthy; otherwise it is the new-gist request to `/gists`. It carries the event's code. |
| AppMachineProperties.OnlySavesRequestSaves | src/App.tsx:340-375 | No event other than `GIST.SAVE` starts a save request. |
| AppMachineProperties.PostingDone | src/App.tsx:364-372 | A successful post leads to `idle.posted` and stores the new gist id. It shows "Gist created!" and writes the id into the address bar. |
| AppMachineProperties.PatchingDone | src/App.tsx:343-349 | A successful patch leads to `idle.patched` and shows "Gist saved!". The context is unchanged. |
| AppMachineProperties.PatchingError | src/App.tsx:350-358 | A failed patch leads to `idle.default`, with an error notification carrying the error's message. |
| AppMachineProperties.PostingErrorIgnored | src/App.tsx:361-375 | `posting` has no error handler: a failed post changes nothing, in any state. |
| AppMachineProperties.TimerReset | src/App.tsx:328-337 | The timer takes `patched` and `posted` to `default` without touching the context. Elsewhere it does nothing. |
| AppMachineProperties.PostThenTimeout | src/App.tsx:333-372 | After a post and the timer, the machine is in `idle.default` and still holds the new gist id. |
| AppMachineProperties.FetchDone | src/App.tsx:459-470 | A fetched gist leads to `loaded`, with its `machine.js` content in the editor. Entering `loaded` shows "Gist loaded!". |
| AppMachineProperties.FetchWithoutMachineFile | src/App.tsx:459-470 | A fetched gist without a `machine.js` file changes nothing. No other event moves the document region out of `fetching`. |
| AppMachineProperties.FetchError | src/App.tsx:471-479 | A failed fetch leads to the document `idle` state, forgets the gist id and shows "Gist not found.". |
| AppMachineProperties.OutcomeActsIffOwnerActive | src/App.tsx:269-484 | A service or timer outcome whose owning state is no longer active changes nothing and shows nothing. While its owner is active, it always moves its region, except a fetched gist without `machine.js`. |
| AppMachineProperties.StartupEstablishesInv | src/App.tsx:220-267 | Startup ends settled. It is `authorized` only with a user, `loaded` only with content, and `fetching` only with a truthy `query.gist`. |
| AppMachineProperties.MacrostepPreservesInv | src/App.tsx:245-485 | Every event keeps that invariant. |
| AppMachineProperties.RunPreservesInv | src/App.tsx:220-485 | Every queue of events, the self-sent replays included, keeps the invariant. |
| AuthActor.Slot.Send | src/App.tsx:182-188 | `send` keeps the listener and stores the code. It delivers exactly once when a listener is present, to that listener and with that code, and otherwise not at all. |
| AuthActor.Slot.Listen | src/App.tsx:189-195 | `listen` installs the listener and keeps the code. It delivers exactly once when the buffered code is non-empty, to the new listener and with that code, and otherwise not at all. |
| AuthActor.Mailbox.constructor | src/App.tsx:177-179 | A new mailbox has no listener and no code, and has delivered nothing. |
| AuthActor.Mailbox.Send | src/App.tsx:182-188 | `send` stores the code, even an empty one, and calls the current listener with it if there is one. |
| AuthActor.Mailbox.Listen | src/App.tsx:189-195 | `listen` replaces the listener and replays a non-empty buffered code to it. |
| AuthActor.SendsWithoutListener | src/App.tsx:182-188 | With nobody listening, sends only overwrite the slot: the last code wins and nothing is delivered. |
| AuthActor.SendsWithListener | src/App.tsx:182-188 | With a listener attached, every send reaches it immediately, in order. |
| AuthActor.SingleListener | src/App.tsx:177-197 | A listener attached between two batches of sends is called with the last earlier code, unless it is empty, and then with every later code. Earlier codes are lost. |
| AuthActor.ListenAgainReplays | src/App.tsx:189-195 | Listening again replays the buffered code again: there is no de-duplication. |
| Layout.LayoutReducer | src/App.tsx:496-515 | The layout changes only on `TOGGLE`, and then only from `full` to `viz` or from `viz` to `full`. |
| Layout.ToggleSwaps | src/App.tsx:496-515 | `TOGGLE` swaps `full` and `viz`. It leaves any other layout string unchanged. |
| Layout.ToggleTwice | src/App.tsx:496-515 | Toggling twice restores every layout. |
| Layout.OtherEventsIgnored | src/App.tsx:496-515 | Every event other than `TOGGLE` leaves the layout unchanged. |

## Where the model follows the code rather than its description

- The replayed deferred save is `send('GIST.SAVE')` with no payload. The model replays `GistSave(None)`; it does not re-send the code of the save that was deferred.
- `listen` replays the buffered code on every call. The code does not guarantee at-most-once delivery (`ListenAgainReplays`).
- When startup routes straight to `authorizing`, the exchange is started with the code of the triggering event. That is the eventless event, which carries no code, so the model starts it with `ExchangeCode(None)`.
- The "Failed to save machine" notification is issued from inside the guard. It is an effect of the transition the guard selects.

## Left out

- Network requests (`invokeSaveGist`, `invokePostGist`, `invokeFetchGist`, `getUser`, the code exchange) are not modelled. Their start is an `Invoke` effect, and their result comes back as a done or error event carrying the data the machine reads. For a fetched gist that data is the content of its `machine.js` file, or its absence.
- Request methods and headers are left out. Both save requests are `POST`s; the model tells them apart by their target, the existing gist or `/gists`.
- An exception thrown while an assignment runs is not modelled as a general case. Only the one the source can hit, a fetched gist without `machine.js`, is modelled: the done event is not applied.
- `window.open`, `alert`, `updateQuery`/`history.replaceState` and `notificationsActor` are I/O. They appear only as effects, with the texts and severities the machine passes to them.
- `toMachine` and `getEdges` are code outside this model. They are the `validate` parameter.
- The xstate interpreter's clock is left out. The two 1000 ms `after` timers are an abstract `Timeout` event, so timing and the delay value are not modelled.
- Internal transitions re-enter nothing that stays active. That is `LOGIN` to `.pendingAuthorization`, and `GIST.SAVE` to `.patching` or `.posting` when that state is already active. An internal `.idle` taken from `idle.patched` or `idle.posted` is modelled as landing in `idle.default`, because `idle`'s initial child is entered. The model does not capture any interpreter behaviour that keeps the active child instead.
- Invocation instances are not distinguished, and cancelling a service on exit is not modelled. An outcome is honoured whenever its owning state is active. A result from an earlier `patching` that arrives after `patching` was re-entered is therefore taken as the current one.
- `log()` in the `patching` done actions is left out: it only logs.
- The `REACT_APP_TEST_TOKEN` environment variable and the page's query string are parameters of `Startup`.
- The `layout` query key, the React components and the styling are UI code, and are left out.
- `AppMachine.Run` does not state its own result; the properties of queues are the `Run` lemmas in `AppMachineProperties`.
