# Web3ConnectCore, modelled in Dafny

This project models the connection-lifecycle controller `Web3ConnectCore` of
web3modal (`src/core.tsx`). The controller is a small state machine. It has two
mutable fields: `uri`, the pending WalletConnect URI, and `show`, whether the
modal is visible. It also has a `modal` flag fixed at construction. Every change
to the two fields goes through `setState`. That function copies each key of a
patch object into the controller and then forwards the patch to the
presentation layer's update hook. The `connectTo*` methods await a wallet
connector. They then run the success transition (`onConnect`) or the failure
transition (`onError`). Each transition toggles the modal and then triggers one
event.

The layout:

- `wrappers.dfy` (`Wrappers`): `Option`.
- `patches.dfy` (`Patches`): the two fields, patches as sequences of key/value
  entries in `Object.keys` order, and `Merge`, the meaning of copying a patch in.
- `events.dfy` (`EventManager`): provider handles, failures, events, and the
  subscriptions `on` registers.
- `lifecycle.dfy` (`Lifecycle`, `LifecycleProperties`): every operation as a
  step function from a `Machine` to the next `Machine`, plus the lemmas about
  them. A `Machine` is the fields plus one trace of observable effects. An
  effect is a patch forwarded to the update hook, an event triggered, or a
  connector invoked. A single trace is what lets the model state orderings such
  as "the `{uri: ""}` patch comes before the `connect` event".
- `core.dfy` (`Core`): the class `Web3ConnectCore`. Its fields are the source's
  fields. Its methods change them step by step, as the source does: `SetState`
  loops over the patch's keys, and `ConnectToWalletConnect` loops over the
  delivered URIs. Each method is proved to leave the object exactly where the
  matching `Lifecycle` function says. The class invariant `Valid()` says that
  without a modal, `uri` is `""` and `show` is `false`. The constructor
  establishes it, and every public mutating method keeps it.

External collaborators become inputs:

- A connector's settled promise is an `Outcome`: `Resolved(provider)` or
  `Rejected(error)`.
- The URIs the WalletConnect connector hands to `onUri` before it settles are a
  sequence `uris`.
- `getInjectProvider()`'s answer is a constructor parameter.
- The update hook and the event manager's `trigger` are entries appended to the
  trace.

The model follows the code as written, including these points:

- Settling an attempt *toggles* `show` rather than forcing it to `false`.
  A `connectTo*` call made while the modal is hidden therefore shows it.
- `toggleModal` never touches `uri`. Hiding the modal can leave a URI pending.
- The WalletConnect re-entry guard clears `uri` when there is a modal. It does
  not toggle `show` and emits no event.
- A failed WalletConnect attempt keeps the last delivered URI.
- `connectToFortmatic` invokes the Portis connector, handing it the fortmatic
  options. The trace records this as `PortisCall(fortmatic options)`.
- When the provider options hold no `walletconnect` entry, reading `.bridge`
  throws inside the `try`. The failure transition then runs with
  `MissingWalletConnectOptions`, and no connector is invoked.
- Only a `modal` option that is exactly `false` turns the modal off.

## Model

| member | source | states |
|---|---|---|
| `Lifecycle.MakeConfig` | src/core.tsx:28-32 | the modal is off exactly when `modal` is given as `false`; absent provider options become an empty bag; the injected-provider label is kept |
| `Core.Web3ConnectCore.constructor` | src/core.tsx:19-32 | the object starts with `uri = ""`, `show = false`, no subscriptions, an empty trace, the configuration `MakeConfig` gives, and the invariant `Valid()` |
| `Core.Web3ConnectCore.On` | src/core.tsx:39-44 | a subscription is appended to the registry; no field and no trace entry changes; for every event name the listeners gain this callback last when the name matches, and are unchanged otherwise; from a `Valid()` object it leaves the object `Valid()` |
| `EventManager.Listeners` | src/core.tsx:39-44 | the callbacks registered under a name are exactly the callbacks of the registry's entries for that name, with no more entries than the registry has |
| `EventManager.ListenersAppend` | src/core.tsx:39-44 | registering under `e` puts the callback after all earlier callbacks for `e` and leaves every other name's listeners as they were |
| `Core.Web3ConnectCore.SetState` | src/core.tsx:134-139 | the loop over the patch's keys leaves the fields equal to `Merge` of the old fields and the patch; the patch is appended once to the trace; subscriptions are untouched |
| `Patches.MergeExact` | src/core.tsx:134-137 | a field the patch does not name keeps its value; a field it names takes the value of the last entry naming it |
| `Patches.PatchApplied` | src/core.tsx:134-137 | for an object-literal patch (distinct keys), every key takes the value the patch carries, and the other field is unchanged |
| `Lifecycle.ToggleModal` | src/core.tsx:103-117 | without a modal, nothing changes and nothing is logged; with a modal, `show` is negated, `uri` is kept, and exactly the patch `{show: !show}` is logged |
| `Core.Web3ConnectCore.ToggleModal` | src/core.tsx:103-117 | the object ends where `Lifecycle.ToggleModal` says; subscriptions are untouched; from a `Valid()` object it leaves the object `Valid()` |
| `LifecycleProperties.ToggleTwiceRestores` | src/core.tsx:103-117 | two toggles restore both fields, and they log one show patch each (none without a modal) |
| `Lifecycle.ResetState` | src/core.tsx:141-146 | from any state, `show = false` and `uri = ""`; the one patch `{show: false, uri: ""}` is logged; no event fires and no connector is called |
| `Core.Web3ConnectCore.ResetState` | src/core.tsx:141-146 | the object ends where `Lifecycle.ResetState` says; from a `Valid()` object it leaves the object `Valid()` |
| `LifecycleProperties.ResetStateIdempotent` | src/core.tsx:141-146 | a second reset leaves the fields as the first did and still adds no event |
| `Lifecycle.Settle` | src/core.tsx:119-132 | an outcome transition flips `show` (with a modal) and keeps `uri`; it logs the toggle's patch first and then the one event; among calls, nothing is added |
| `Lifecycle.OnConnect` | src/core.tsx:124-127 | the toggle, then exactly one `connect` event carrying the provider |
| `Lifecycle.OnError` | src/core.tsx:119-122 | the toggle, then exactly one `error` event carrying the failure |
| `Lifecycle.OnClose` | src/core.tsx:129-132 | the toggle, then exactly one `close` event with no payload |
| `Core.Web3ConnectCore.OnConnect` | src/core.tsx:124-127 | the object ends where `Lifecycle.OnConnect` says; from a `Valid()` object it leaves the object `Valid()` |
| `Core.Web3ConnectCore.OnError` | src/core.tsx:119-122 | the object ends where `Lifecycle.OnError` says; from a `Valid()` object it leaves the object `Valid()` |
| `Core.Web3ConnectCore.OnClose` | src/core.tsx:129-132 | the object ends where `Lifecycle.OnClose` says; from a `Valid()` object it leaves the object `Valid()` |
| `Lifecycle.Attempt` | src/core.tsx:46-75 | the try/await/catch template: one connector call, then the toggle, then exactly one event (`connect` on success, `error` on failure); `uri` is kept |
| `Core.Web3ConnectCore.Conclude` | src/core.tsx:47-52 | a resolved connector leads to the success transition and a rejected one to the failure transition, never both; from a `Valid()` object it leaves the object `Valid()` |
| `LifecycleProperties.OutcomeEventExclusive` | src/core.tsx:46-75 | the outcome event is `connect` exactly when the connector resolved and `error` exactly when it rejected, each carrying the settled value |
| `Lifecycle.ConnectToInjected` | src/core.tsx:46-53 | exactly one call to the injected connector, and exactly one outcome event |
| `Lifecycle.ConnectToFortmatic` | src/core.tsx:55-64 | exactly one call, to the Portis connector with the fortmatic options, and exactly one outcome event |
| `Lifecycle.ConnectToPortis` | src/core.tsx:66-75 | exactly one call, to the Portis connector with the portis options, and exactly one outcome event |
| `Core.Web3ConnectCore.ConnectToInjected` | src/core.tsx:46-53 | the object ends where `Lifecycle.ConnectToInjected` says; from a `Valid()` object it leaves the object `Valid()` |
| `Core.Web3ConnectCore.ConnectToFortmatic` | src/core.tsx:55-64 | the object ends where `Lifecycle.ConnectToFortmatic` says; from a `Valid()` object it leaves the object `Valid()` |
| `Core.Web3ConnectCore.ConnectToPortis` | src/core.tsx:66-75 | the object ends where `Lifecycle.ConnectToPortis` says; from a `Valid()` object it leaves the object `Valid()` |
| `Lifecycle.DeliverUris` | src/core.tsx:88-92 | with a modal, each delivered URI is stored and logged as `{uri}` in delivery order, so `uri` ends as the last one and `show` is kept; without a modal, nothing changes |
| `Core.Web3ConnectCore.OnUri` | src/core.tsx:88-92 | the object ends where one `onUri` step of `Lifecycle` says |
| `Core.Web3ConnectCore.ConnectToWalletConnect` | src/core.tsx:77-101 | the guard, the options lookup, the loop over delivered URIs and the outcome leave the object where `Lifecycle.ConnectToWalletConnect` says; from a `Valid()` object it leaves the object `Valid()` |
| `LifecycleProperties.WalletConnectReentry` | src/core.tsx:78-83 | with a URI pending, no connector is called and no event fires; `uri` becomes `""` with a modal and is kept without one; `show` is kept |
| `LifecycleProperties.WalletConnectMissingOptions` | src/core.tsx:84-86 | with no WalletConnect options, no connector is called; the toggle runs and one `error` event fires |
| `LifecycleProperties.WalletConnectSuccess` | src/core.tsx:84-97 | on success, the trace is: the call, the delivered URIs (with a modal), `{uri: ""}` (with a modal), the toggle, and then `connect`; afterwards `uri = ""` |
| `LifecycleProperties.WalletConnectFailure` | src/core.tsx:98-100 | on failure, `uri` keeps the last delivered URI (with a modal), the toggle runs, and exactly one `error` event fires, with no `connect` |
| `LifecycleProperties.InvPreserved` | src/core.tsx:77-146 | every operation keeps the invariant that, without a modal, `uri` is `""` and `show` is `false` |

## Left out

- `renderMainModal` and the React/ReactDOM rendering (`src/core.tsx:148-168`) are UI plumbing. The constructor does not render anything in this model.
- The `document.body.style.position` lock in `toggleModal` is a browser side effect. Only the `show` flip is modelled.
- `lightboxOpacity` is a floating-point hint that is only forwarded to the UI, so it is not modelled.
- `getInjectProvider()` and the `connectors.*` wallet adapters are foreign calls. Their results are parameters. The options a connector receives are recorded in the trace, but what the connector does with them is not modelled.
- `window.updateWeb3ConnectMainModal` is a global hook. It appears only as the `Updated` trace entries. An exception it might throw is not modelled.
- The event manager (`src/events`) is not part of this model beyond its registry and the `Emitted` trace entries. Running the callbacks, and exceptions they throw, are left out.
- Concurrency is left out. Each operation is one atomic step. The model does not capture two attempts interleaving, a close arriving while an attempt is in flight, or the microtask delay between the toggle and the event in `onConnect`/`onError`/`onClose`. The order of effects within one operation is kept.
- `setState` with keys other than `uri` and `show` never happens in the source, so patches carry only those two keys.
- A `modal` option that is neither absent nor a boolean is not modelled. The option is an optional boolean.
