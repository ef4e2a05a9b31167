# plasmo-state: a verified model of state replication across extension contexts

plasmo-state keeps one JavaScript object ("the state") in step across the
contexts of a browser extension: popup, background, content script and
offscreen document. Each context holds a `State`. A write through the state's
`current` proxy stores the value, asks the context's sync module to push the
whole state over the runtime channel, and emits a `change` event. Sync
messages carry a tab id (`-1` means "any tab"). A context accepts a message
when the message speaks for its tab. An accepted `push` replaces its state; an
accepted `pull` is answered with it. The module class depends on the
environment. The extension module (popup, background) also talks to the
active tab. In the background it relays state to and from the offscreen
document. The offscreen module pulls through that relay, with a 5-second
timeout. `Persistence` writes the persistent keys of the state as one JSON
record under `"plasmo-sync"` in synced storage. It applies incoming records
key by key. The context's tab id comes from `getCurrentTabId`.

The model is one context, run sequentially:

- `Types`, `Objects`, `Json`, `Messages`: the values.
  - A plain object is an ordered list of entries with distinct keys
    (`Objects.Object`). Writing a key overwrites it in place or appends it.
  - `JSON.stringify`/`JSON.parse` are an abstract text that parses back to
    the object it was made from, or fails.
- `Browser.BrowserApi`: what the context does to the browser.
  - Every send (runtime message, tab message, storage write) is appended to
    `outbox`.
  - Listener registrations are lists of handler identities. Every `.bind(this)`
    yields a new identity.
  - A reply to a send is a parameter (`SendOutcome`): a value after some
    milliseconds, a rejection, or never.
- `SyncProtocol`: the decisions of the sync modules, as functions.
  - the module class per environment;
  - the scope test;
  - the effect of an inbound message;
  - the sends of `push`;
  - the sends and outcome of `pull` for each module class, including the
    offscreen race;
  - the background relay.
- `Container`: the imperative core. It holds the classes `State` and
  `SyncModule`. `SyncModule` stands for all three module classes, told apart
  by `variant`. The methods that send or answer messages (`State.Set`,
  `State.Setup`, `SyncModule.ConfigUpdateListener`, `Push`, `OnPush`,
  `OnAfterPull`, `Pull`, `HandleRuntimeMessage`) are proved against the
  functions of `SyncProtocol`. The others (`State.Get`, `State.Replace`,
  the listener bookkeeping, `SyncModule.Destroy`, `DestroyIntended` and the
  constructors) state their effect on the fields directly.
  - `State` has fields for the state object, configuration, sync module,
    `setupDone`, `currentSource`, readiness and change listeners.
  - `events` is a ghost log of emitted `change` events. Each entry records how
    many sends preceded it.
- `Persistence`: the `Persistence` class, the persistent-subset filter and
  the record-applying loop.
- `TabId`: `getCurrentTabId` over the list the tabs API would return.

Members that `State.ts` does not declare, but that other files use, are plain
fields or members here:

- `environment` (src/Sync/SyncModule.ts:13, src/Sync/ExtensionSyncModule.ts:19);
- `setupDone` (src/Sync/SyncModule.ts:44);
- `currentSource` (src/Persistence.ts:70, src/Sync/ExtensionSyncModule.ts:47);
- `keyIsPersistent` (src/Persistence.ts:42), over `config.persistent`;
- `increaseReadyProgress` (src/Persistence.ts:64);
- a `replace` with a second, unused source argument (src/Sync/SyncModule.ts:34).

Nothing in the core sets `setupDone`, so it starts `false` and stays so unless
a client sets it. Until then `push` sends nothing.

Discrepancies between files are modelled as written:

- `OffscreenSyncModule` is modelled, but `#createSyncModule` never constructs
  it: Offscreen gets `ContentSyncModule` (`SyncProtocol.VariantFor`).
- The offscreen `onPush` forwards the push message's `payload`, but `push`
  builds `data`. The relay requires a payload, so the offscreen relay push
  does nothing (`SyncProtocol.OffscreenRelayPushIsInert`).
- `State.ts` never constructs a `Persistence`. Here it is constructed
  separately on a state.

## Model

| member | source | states |
|---|---|---|
| Objects.Put | src/State.ts:55-56 | the written key then holds the value; every other key keeps its value; the key set gains the key; an existing key keeps its position and a new key is appended |
| Objects.LookupMatches | src/State.ts:52-54 | a lookup finds exactly the keys of the object, each with its entry's value |
| Objects.Assign | src/Persistence.ts:71-73 | writing a record's entries one by one drops no key of the state: the result is at least as long and keeps every key it had |
| Objects.AssignKeepsOrder | src/Persistence.ts:71-73 | after writing a record's entries, the keys the state already had keep their positions |
| Objects.AssignKeys | src/Persistence.ts:71-73 | after writing the entries of a record one by one, the keys are those of the state and of the record |
| Objects.AssignLookup | src/Persistence.ts:71-73 | after writing a record's entries, a key holds the record's value if the record has it, and its old value otherwise |
| Json.Stringify | src/Persistence.ts:52-54 | parsing the text of an object gives the object back |
| Json.Parse | src/Persistence.ts:68 | parsing fails with a `SyntaxError` exactly on text that is not a serialised object |
| Container.State.constructor | src/State.ts:16-29 | the state starts as the initial state with the configured persistent keys and tab id, with no events; a key is persistent (`keyIsPersistent`) exactly when it is listed in `config.persistent`, none when the list or the configuration is absent; the sync module is created later, by `Setup` |
| Container.State.Get | src/State.ts:74-76 | `get(key)`, and reads through a proxy taken from the current state, are defined exactly on the stored keys and give the stored value; they read only the state |
| Container.State.Set | src/State.ts:55-62 | a write through a proxy taken from the current state stores the value at the key (other keys as in `Objects.Put`), sends exactly the sync module's push (nothing without a module), then emits one event with the key and value after that push, and reports success |
| Container.State.Replace | src/State.ts:78-81 | the state becomes the argument and exactly one `"*"` event carrying it is emitted |
| Container.State.IncreaseReadyProgress | src/Persistence.ts:64 | readiness advances by exactly one |
| Container.State.CreateSyncModule | src/State.ts:40-48 | the module class is that of `VariantFor` for the environment, and the module registers its listeners |
| Container.State.Setup | src/State.ts:31-38 | the tab id is the configured one, or otherwise the one resolved from the tabs; then the module is created and pulls, and its sends and replacement are those of `PullPlan` |
| SyncProtocol.VariantFor | src/State.ts:40-48 | Background and Popup get the extension module; Content and Offscreen get the content module; nothing gets the offscreen module |
| SyncProtocol.Accepts | src/Sync/SyncModule.ts:24-26 | a message is accepted iff the local tab is -1, or the message's tab id is not -1 and equals the local tab, or it is -1 and the sender's tab is the local tab |
| SyncProtocol.Inbound | src/Sync/SyncModule.ts:21-41 | non-sync and out-of-scope messages have no effect and no reply; an accepted push with data replaces the state with it (source `"sync"`); an accepted pull is answered with the current state and changes nothing |
| SyncProtocol.ScopeIsolation | src/Sync/SyncModule.ts:24-31 | contexts of two different tabs ignore each other's messages |
| SyncProtocol.PushReachesSameScope | src/Sync/SyncModule.ts:50-59 | the broadcast push of a context is accepted by every context of the same tab and every context scoped to -1, and makes their state the pusher's |
| SyncProtocol.PushMessage | src/Sync/SyncModule.ts:50-55 | the push message is a sync `push` with the pusher's tab id, the whole state under `data` and no `payload` |
| SyncProtocol.OnPushSends | src/Sync/SyncModule.ts:57-63 | the content module's hook sends nothing; the extension module's sends the push message to the state's tab; the offscreen module's sends one `pushStateOffscreen` runtime message with the tab id and the push message's `payload` and no `data` |
| SyncProtocol.PushSends | src/Sync/SyncModule.ts:43-62 | nothing is sent iff setup is not done; otherwise the module's `onPush` sends come first and the runtime broadcast of the push message (`data` = state, the state's tab id) comes last; the extension module sends that same message to the tab |
| SyncProtocol.Awaited | src/Sync/SyncModule.ts:66-72 | a send that never settles stops the pull; a resolved reply passes through unchanged; a rejection reads as no state |
| SyncProtocol.ApplyIfChanged | src/Sync/SyncModule.ts:75-87 | a fetched state is applied, with source `"sync"`, exactly when there is one and it differs from the current state |
| SyncProtocol.BasePull | src/Sync/SyncModule.ts:65-87 | the base pull first asks on the runtime channel; it also asks the state's tab exactly for the extension module when the runtime gives no state; an unsettled request keeps the state; a replacement has source `"sync"` and differs from the current state |
| SyncProtocol.Race | src/Sync/OffscreenSyncModule.ts:35-44 | the reply wins exactly when it resolves before the timeout, and then carries its value; a rejection wins exactly when it comes before the timeout |
| SyncProtocol.OffscreenPull | src/Sync/OffscreenSyncModule.ts:32-56 | the offscreen pull sends one `pullStateOffscreen` request and replaces the state, with source `"background"`, exactly when a state comes back within 5000 ms |
| SyncProtocol.PullPlan | src/Sync/OffscreenSyncModule.ts:32-56 | every pull first sends a runtime sync request with the state's tab id (`pullStateOffscreen` for the offscreen module, `pull` otherwise); a replacement has source `"background"` for the offscreen module and `"sync"` otherwise; an unsettled request keeps the state |
| SyncProtocol.BasePullAppliesOnlyChanges | src/Sync/SyncModule.ts:75-86 | a fetched state replaces the current one (source `"sync"`) exactly when it differs from it |
| SyncProtocol.ExtensionPullFallsBackToTab | src/Sync/ExtensionSyncModule.ts:86-100 | when the runtime pull yields no state, the extension module asks the state's tab with a pull message and uses its answer; the content module stops |
| SyncProtocol.OffscreenPullSkipsEqualityCheck | src/Sync/OffscreenSyncModule.ts:32-56 | the offscreen pull applies a timely answer even when it equals the current state, with source `"background"` |
| SyncProtocol.OffscreenPullFailuresKeepState | src/Sync/OffscreenSyncModule.ts:41-55 | an answer at or after 5000 ms, an empty answer, a rejection, or no answer leave the state unchanged |
| SyncProtocol.Relay | src/Sync/ExtensionSyncModule.ts:34-63 | the relay applies a message iff it is a sync message in the background with action `pushStateOffscreen` and a payload; it answers iff it is a sync message in the background with action `pullStateOffscreen` |
| SyncProtocol.OffscreenRelayPushIsInert | src/Sync/OffscreenSyncModule.ts:18-26 | the relay ignores whatever the offscreen `onPush` sends for a push message, because it carries no payload |
| Container.SyncModule.constructor | src/Sync/ExtensionSyncModule.ts:17-27 | `configUpdateListener` is bound and registered; a second, `handleRuntimeMessage`, is registered iff the module is the extension module of the background |
| Container.SyncModule.ConfigUpdateListener | src/Sync/SyncModule.ts:21-41 | the reply and the state change are those of `Inbound`; nothing is sent |
| Container.SyncModule.Push | src/Sync/SyncModule.ts:43-62 | the sends are exactly `PushSends` for the current state |
| Container.SyncModule.OnPush | src/Sync/ExtensionSyncModule.ts:80-84 | the extension module sends the push message to the state's tab; the offscreen module sends a `pushStateOffscreen` message with the state's tab id and the message's payload; the content module sends nothing |
| Container.SyncModule.OnAfterPull | src/Sync/ExtensionSyncModule.ts:86-100 | a present state passes through unchanged; when the state is absent, the extension module sends a pull message to the state's tab and yields its answer |
| Container.SyncModule.Pull | src/Sync/OffscreenSyncModule.ts:32-56 | the sends and the replacement are those of `PullPlan`: the base pull for the content and extension modules, the relay pull raced against 5000 ms for the offscreen module |
| Container.SyncModule.HandleRuntimeMessage | src/Sync/ExtensionSyncModule.ts:29-65 | ignored messages change nothing; a relayed push makes the payload the state, emits one `"*"` event and sends exactly the re-push; a relayed pull is answered with the state, keeps the channel open and changes nothing; `currentSource` ends as it began |
| Container.SyncModule.Destroy | src/Sync/ExtensionSyncModule.ts:68-78 | as written: only `configUpdateListener` is unregistered; a registered relay handler stays registered |
| Container.SyncModule.DestroyIntended | src/Sync/ExtensionSyncModule.ts:68-78 | both handlers the module registered are unregistered, and nothing else |
| Persistence.PersistentSubset | src/Persistence.ts:45-50 | the record has exactly the persistent keys of the state, each with its current value |
| Persistence.RecordWrite | src/Persistence.ts:52-54 | the write goes to `"plasmo-sync"` and its text parses back to exactly the persistent keys of the state with their values |
| Persistence.RecordRoundTrip | src/Persistence.ts:52-54 | applying the written record in another context gives each persistent key of the writer its value there and leaves every other key alone |
| Persistence.EmittedValueIsReadAsSource | src/Persistence.ts:41-42 | as written, a user write of a persistent key does not write the record, while writing the string `"user"` does |
| Persistence.WritePushes | src/Persistence.ts:71-73 | defines the sends of the write loop (each write's push, in order); its own contract records only that there are none without a module or before setup, and `WriteEntries` is where it is used |
| Persistence.WriteEntries | src/Persistence.ts:71-73 | writing a record's entries while `currentSource` is `"storage"` makes the state `Assign(old state, record)`, sends each write's push in order, and emits one event per entry with its key and value |
| Persistence.Persistence.constructor | src/Persistence.ts:17-30 | `onStateChange` is registered for change events and `onBrowserStorageUpdate` on storage changes, each under a new identity |
| Persistence.Persistence.OnStateChange | src/Persistence.ts:41-56 | exactly a user change of a persistent key sends one storage write of the persistent subset under `"plasmo-sync"`; after `destroy` a user change throws a `TypeError` |
| Persistence.Persistence.HandlePersistentDataUpdate | src/Persistence.ts:67-76 | unparsable text throws a `SyntaxError` and changes nothing; a dropped state throws a `TypeError`; otherwise the record's entries are written as in `WriteEntries` (state, sends, events) and `currentSource` ends as `"user"`; no other field of the state can change |
| Persistence.Persistence.OnBrowserStorageUpdate | src/Persistence.ts:32-39 | only an update with the `"plasmo-sync"` entry has an effect; a removed or unparsable record throws a `SyntaxError` and changes nothing; with a dropped state a parsable one throws a `TypeError`; otherwise it is applied as by `HandlePersistentDataUpdate` |
| Persistence.Persistence.FetchStateFromStorage | src/Persistence.ts:58-65 | a missing or empty record changes nothing; an unparsable one throws a `SyntaxError` and changes nothing; otherwise it is applied as by `HandlePersistentDataUpdate`, and readiness advances by one exactly when the apply completes |
| Persistence.Persistence.Destroy | src/Persistence.ts:78-82 | both listeners are unregistered and the state is dropped, and of the state only its change listeners change; a second call throws a `TypeError` |
| TabId.GetCurrentTabId | src/getTabId.ts:6-19 | -1 without the tabs API, without an active tab, or when the first active tab's id is missing or 0; otherwise that id, which belongs to an active tab |
| TabId.OnlyFirstActiveTabCounts | src/getTabId.ts:8-16 | tabs after the first active one never change the result |

## Left out

- Transport: message passing between contexts, promise scheduling and the interleaving of callbacks are not modelled. One context's operations run one after another. Replies, the storage read and the tabs query are parameters.
- `EventEmitter` dispatch: `State.Set` and `State.Replace` record the event in a ghost log but do not call listeners. `Persistence.OnStateChange` is a separate step with an explicit source.
- Logging through `debug` and `console` is not modelled; it has no effect on state.
- JSON is abstract: which values survive `JSON.stringify` (undefined, functions, cycles) and numeric ordering of integer-like keys are not modelled. Numbers are integers.
- `Json.Parse`: a stored text is either a serialised object or unparsable. Valid JSON that is not an object is not modelled. On `"null"` the source sets `currentSource` to `"storage"` and then `Object.entries(null)` throws a `TypeError`, which leaves `currentSource` at `"storage"`. On a JSON string such as `"\"ab\""` the source writes the keys `"0"` and `"1"`.
- `Container.State.Set`: the model covers writes through a proxy taken from the current `#state`. `get current()` wraps the object `#state` points to at that moment (src/State.ts:50-56), so a proxy held across a `replace` (src/State.ts:78-79) reads and writes the replaced object. Such a write is lost to the state and to the next push, but its `change` event is still emitted. The model has no proxy objects, so it always writes into the current state and does not capture this aliasing.
- `Container.State.Setup`: `SetupConfig.tabId` is an `Option`. A configuration whose `tabId` key is present but `undefined` is therefore read as absent and resolved from the tabs. The source tests for the key (src/State.ts:32), skips resolution, and runs with an undefined tab id.
- `Container.State.constructor`: with a configured tab id, the source's constructor already creates the sync module, registers its listeners and sends the pull request before returning, because `#setup` reaches its first `await` only when it must resolve the tab id. The model moves that synchronous part into the separate step `Container.State.Setup`, so right after construction it has no sync module in both cases.
- `SyncProtocol.Inbound`: an accepted push without `data` keeps the state, where src/Sync/SyncModule.ts:34 replaces it with `undefined`; the state type has no `undefined`.
- `Container.SyncModule.ConfigUpdateListener`: an accepted push without `data` keeps the state, where the source would replace it with `undefined`; a `null` message, which would throw on `msg.type`, is not modelled.
- `Container.SyncModule.HandleRuntimeMessage`: `replace` and `push` cannot throw in the model, so the `finally` is shown only on the normal path.
- `Container.SyncModule.Destroy` requires every registered handler to have been bound before (ids below the binding counter), which a browser guarantees by construction.
- src/hook.ts, src/index.ts, src/Sync/ContentSyncModule.ts (covered by `SyncModule` with variant `ContentSync`) and the example files are not part of this model.

## Findings

| source | as written | input that shows it | evidently intended | confidence | as-written member | corrected member |
|---|---|---|---|---|---|---|
| src/State.ts:60, src/Persistence.ts:41-42 | the state emits `change` with `(key, value)`, and `onStateChange` reads the second argument as the change source | a user writes `1` to a persistent key: the listener compares `1` with `"user"` and writes no record; a write of the string `"user"` writes one even while a storage record is being applied | a record is written exactly for user changes of persistent keys, never for writes made while applying a storage record | not executed | Persistence.EmittedValueIsReadAsSource | Persistence.Persistence.OnStateChange |
| src/Sync/ExtensionSyncModule.ts:73-75 | `destroy` removes `this.handleRuntimeMessage.bind(this)`, a new function object that was never registered | a background extension module is destroyed: the relay handler registered at src/Sync/ExtensionSyncModule.ts:23-24 stays on `runtime.onMessage` | `destroy` unregisters the relay handler it registered | not executed | Container.SyncModule.Destroy | Container.SyncModule.DestroyIntended |
