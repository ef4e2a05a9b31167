/**
 * The state container of one context (`State`) and the sync module it
 * creates (`SyncModule` with its three classes, told apart by `variant`).
 * The two refer to each other, so they share this module.
 */
module Container {
  import opened Types
  import opened Objects
  import opened Json
  import opened Messages
  import opened TabId
  import opened SyncProtocol
  import opened Browser

  class State {
    const environment: Environment
    /** The browser APIs of this context. */
    const browser: BrowserApi
    /** The `#state` object; `currentRaw` returns it. */
    var raw: Object
    /** `config.persistent`, empty when not configured. */
    var persistent: seq<string>
    /** `config.tabId`: `None` until configured or resolved. */
    var tabId: Option<int>
    var syncModule: SyncModule?
    /** Read by `push`; nothing in the container sets it. */
    var setupDone: bool
    /** Written by the persistence and relay code; `None` is `undefined`. */
    var currentSource: Option<ChangeSource>
    var readyProgress: nat
    /** Listeners of the `change` event. */
    var changeListeners: seq<Handler>
    /** Every `change` event emitted so far. */
    ghost var events: seq<Event>

    ghost predicate Valid()
      reads this`syncModule, this`tabId
    {
      syncModule != null ==> syncModule.state == this && tabId.Some?
    }

    /**
     * `new State(environment, initialState, config)` without its call of
     * `#setup`: the fields as configured, no sync module yet. In the source
     * `#setup` starts inside the constructor; without a configured tab id it
     * suspends at its first `await` before creating the module, but with one
     * it creates the module and sends the pull before the constructor returns.
     * Both cases are the separate step `Setup`.
     */
    constructor(environment: Environment, initialState: Object, config: Option<SetupConfig>, browser: BrowserApi)
      ensures Valid()
      ensures this.environment == environment && this.browser == browser
      ensures raw == initialState && events == []
      ensures persistent == (if config.Some? && config.value.persistent.Some? then config.value.persistent.value else [])
      ensures forall k :: KeyIsPersistent(k) <==>
        config.Some? && config.value.persistent.Some? && k in config.value.persistent.value
      ensures tabId == (if config.Some? then config.value.tabId else None)
      ensures syncModule == null && !setupDone && currentSource == None && readyProgress == 0
      ensures changeListeners == []
    {
      this.environment := environment;
      this.browser := browser;
      raw := initialState;
      var c := if config.Some? then config.value else SetupConfig(None, None);
      persistent := if c.persistent.Some? then c.persistent.value else [];
      tabId := c.tabId;
      syncModule := null;
      setupDone := false;
      currentSource := None;
      readyProgress := 0;
      changeListeners := [];
      events := [];
    }

    /** The module class of the sync module, if there is one. */
    function ModuleVariant(): Option<Variant>
      reads this`syncModule
    {
      if syncModule == null then None else Some(syncModule.variant)
    }

    /** What `this.#syncModule?.push()` sends when the state is `snapshot`. */
    function PendingPush(snapshot: Object): seq<Outgoing>
      requires Valid()
      reads this`syncModule, this`setupDone, this`tabId
    {
      ModulePushSends(ModuleVariant(), setupDone, tabId, snapshot)
    }

    /** `get(key)` and the proxy's `get` trap: the stored value, `None` for `undefined`. */
    function Get(key: string): (r: Option<Value>)
      reads this`raw
      ensures r.Some? <==> key in Keys(raw)
      ensures forall i :: 0 <= i < |raw| && raw[i].0 == key ==> r == Some(raw[i].1)
    {
      LookupMatches(raw, key);
      Lookup(raw, key)
    }

    /** `keyIsPersistent(key)`: whether the key is one of `config.persistent`. */
    predicate KeyIsPersistent(key: string)
      reads this`persistent
    {
      key in persistent
    }

    /**
     * The proxy's `set` trap: store the value, ask the sync module (if any)
     * to push, then emit one `change` event with the key and the value, and
     * report success.
     */
    method Set(key: string, value: Value) returns (ok: bool)
      requires Valid()
      modifies this`raw, this`events, browser`outbox
      ensures Valid()
      ensures raw == Put(old(raw), key, value)
      ensures browser.outbox == old(browser.outbox) + PendingPush(raw)
      ensures events == old(events) + [Change(key, ValueArg(value), |browser.outbox|)]
      ensures ok
    {
      raw := Put(raw, key, value);
      if syncModule != null {
        syncModule.Push();
      }
      events := events + [Change(key, ValueArg(value), |browser.outbox|)];
      ok := true;
    }

    /**
     * `replace(state, source)`: swap the whole state and emit one `change`
     * event with key `"*"`. The source argument is not used.
     */
    method Replace(s: Object, source: ChangeSource)
      modifies this`raw, this`events
      ensures raw == s
      ensures events == old(events) + [Change("*", ObjectArg(s), |browser.outbox|)]
    {
      raw := s;
      events := events + [Change("*", ObjectArg(s), |browser.outbox|)];
    }

    method IncreaseReadyProgress()
      modifies this`readyProgress
      ensures readyProgress == old(readyProgress) + 1
    {
      readyProgress := readyProgress + 1;
    }

    /** `addListener("change", h)`. */
    method AddChangeListener(h: Handler)
      modifies this`changeListeners
      ensures changeListeners == old(changeListeners) + [h]
    {
      changeListeners := changeListeners + [h];
    }

    /** `removeListener("change", h)`. */
    method RemoveChangeListener(h: Handler)
      modifies this`changeListeners
      ensures changeListeners == Without(old(changeListeners), h)
    {
      changeListeners := Without(changeListeners, h);
    }

    /** `#createSyncModule`: the module class follows the environment. */
    method CreateSyncModule() returns (m: SyncModule)
      modifies browser`runtimeListeners, browser`nextBinding
      ensures fresh(m) && m.state == this && m.variant == VariantFor(environment) && m.Valid()
      ensures m.Registered(old(browser.runtimeListeners), old(browser.nextBinding))
    {
      m := new SyncModule(this, VariantFor(environment));
    }

    /**
     * `#setup`, run to the end: resolve the tab id unless one was
     * configured, create the sync module, pull. When a tab id was configured
     * the source runs all of this synchronously inside `new State`.
     * `tabs` is what the tabs API reports; the replies are those the pull
     * receives.
     */
    method Setup(tabs: Option<seq<Tab>>, runtimeReply: SendOutcome, tabReply: SendOutcome)
      requires Valid()
      modifies this`tabId, this`syncModule, this`raw, this`events, browser
      ensures Valid() && syncModule != null && fresh(syncModule)
      ensures tabId == if old(tabId).Some? then old(tabId) else Some(GetCurrentTabId(tabs))
      ensures syncModule.variant == VariantFor(environment) && syncModule.Valid()
      ensures syncModule.Registered(old(browser.runtimeListeners), old(browser.nextBinding))
      ensures var step := PullPlan(syncModule.variant, tabId.value, old(raw), runtimeReply, tabReply);
        && browser.outbox == old(browser.outbox) + step.sends
        && raw == ApplyReplacement(old(raw), step.replacement)
        && events == old(events) + ReplacementEvents(step.replacement, |browser.outbox|)
      ensures browser.storageListeners == old(browser.storageListeners)
    {
      if tabId.None? {
        tabId := Some(GetCurrentTabId(tabs));
      }
      var m := CreateSyncModule();
      syncModule := m;
      m.Pull(runtimeReply, tabReply);
    }
  }

  class SyncModule {
    const state: State
    const variant: Variant
    /** The bound `configUpdateListener`, kept so that `destroy` can remove it. */
    const configListener: Handler
    /**
     * The bound `handleRuntimeMessage` a background `ExtensionSyncModule`
     * registers; the module itself keeps no reference to it.
     */
    const relayListener: Option<Handler>

    /** The handlers this module holds are bound to the functions they name. */
    ghost predicate Valid() {
      && configListener.kind == HandlerKind.ConfigUpdateListener
      && (relayListener.Some? <==> RegistersRelay(variant, state.environment))
      && (relayListener.Some? ==> relayListener.value.kind == HandlerKind.HandleRuntimeMessage)
    }

    /** How the constructor changed the runtime listeners and the binding counter. */
    ghost predicate Registered(before: seq<Handler>, nextBefore: nat)
      reads state.browser
    {
      && configListener == Handler(nextBefore, HandlerKind.ConfigUpdateListener)
      && (relayListener.Some? <==> RegistersRelay(variant, state.environment))
      && (relayListener.Some? ==> relayListener.value == Handler(nextBefore + 1, HandlerKind.HandleRuntimeMessage))
      && state.browser.runtimeListeners ==
           before + [configListener] + (if relayListener.Some? then [relayListener.value] else [])
      && state.browser.nextBinding == nextBefore + (if relayListener.Some? then 2 else 1)
    }

    /**
     * The constructor: bind and register `configUpdateListener`; the
     * background's `ExtensionSyncModule` also registers `handleRuntimeMessage`.
     */
    constructor(state: State, variant: Variant)
      modifies state.browser`runtimeListeners, state.browser`nextBinding
      ensures this.state == state && this.variant == variant && Valid()
      ensures Registered(old(state.browser.runtimeListeners), old(state.browser.nextBinding))
    {
      var browser := state.browser;
      var config := browser.Bind(HandlerKind.ConfigUpdateListener);
      browser.AddRuntimeListener(config);
      var relay: Option<Handler> := None;
      if RegistersRelay(variant, state.environment) {
        var h := browser.Bind(HandlerKind.HandleRuntimeMessage);
        browser.AddRuntimeListener(h);
        relay := Some(h);
      }
      this.state := state;
      this.variant := variant;
      configListener := config;
      relayListener := relay;
    }

    /**
     * `configUpdateListener`: apply an accepted push, answer an accepted pull;
     * nothing is ever sent from here, so an applied push is not re-broadcast.
     */
    method ConfigUpdateListener(m: RuntimeMessage, sender: Sender) returns (reply: Option<Object>)
      requires state.tabId.Some?
      modifies state`raw, state`events
      ensures var r := Inbound(state.tabId.value, old(state.raw), m, sender);
        && reply == r.reply
        && state.raw == ApplyReplacement(old(state.raw), r.replacement)
        && state.events == old(state.events) + ReplacementEvents(r.replacement, |state.browser.outbox|)
      ensures state.browser.outbox == old(state.browser.outbox)
    {
      var r := Inbound(state.tabId.value, state.raw, m, sender);
      if r.replacement.ReplaceWith? {
        state.Replace(r.replacement.snapshot, r.replacement.source);
      }
      reply := r.reply;
    }

    /** `onPush`: the module class's extra sends for a push message. */
    method OnPush(push: SyncMessage)
      requires state.tabId.Some?
      modifies state.browser`outbox
      ensures state.browser.outbox == old(state.browser.outbox) + OnPushSends(variant, state.tabId.value, push)
    {
      match variant
      case ContentSync =>
      case ExtensionSync =>
        state.browser.Send(TabSend(state.tabId.value, push));
      case OffscreenSync =>
        state.browser.Send(RuntimeSend(RelayPushMessage(state.tabId.value, push)));
    }

    /**
     * `push`: nothing before setup is done; otherwise build the push message
     * from the current state, hand it to `onPush`, then broadcast it. Send
     * failures are swallowed and change nothing.
     */
    method Push()
      requires state.tabId.Some?
      modifies state.browser`outbox
      ensures state.browser.outbox ==
        old(state.browser.outbox) + PushSends(variant, state.setupDone, state.tabId.value, state.raw)
    {
      if !state.setupDone {
        return;
      }
      var m := PushMessage(state.raw, state.tabId.value);
      OnPush(m);
      state.browser.Send(RuntimeSend(m));
    }

    /**
     * `onAfterPull`: the extension module asks the state's tab when the
     * runtime channel gave no state; `None` means the awaited answer never
     * comes.
     */
    method OnAfterPull(fetched: Option<Object>, tabReply: SendOutcome) returns (r: Option<Option<Object>>)
      requires state.tabId.Some?
      modifies state.browser`outbox
      ensures variant == ExtensionSync && fetched.None? ==>
        && state.browser.outbox == old(state.browser.outbox) + [TabSend(state.tabId.value, PullRequest(state.tabId.value))]
        && r == Awaited(tabReply)
      ensures !(variant == ExtensionSync && fetched.None?) ==>
        state.browser.outbox == old(state.browser.outbox) && r == Some(fetched)
    {
      if variant == ExtensionSync && fetched.None? {
        state.browser.Send(TabSend(state.tabId.value, PullRequest(state.tabId.value)));
        r := Awaited(tabReply);
      } else {
        r := Some(fetched);
      }
    }

    /**
     * `pull`, for each module class: the sends it makes and the replacement
     * it applies are those of `PullPlan`.
     */
    method Pull(runtimeReply: SendOutcome, tabReply: SendOutcome)
      requires state.tabId.Some?
      modifies state`raw, state`events, state.browser`outbox
      ensures var step := PullPlan(variant, state.tabId.value, old(state.raw), runtimeReply, tabReply);
        && state.browser.outbox == old(state.browser.outbox) + step.sends
        && state.raw == ApplyReplacement(old(state.raw), step.replacement)
        && state.events == old(state.events) + ReplacementEvents(step.replacement, |state.browser.outbox|)
    {
      var tab := state.tabId.value;
      if variant == OffscreenSync {
        state.browser.Send(RuntimeSend(RelayPullRequest(tab)));
        var race := Race(runtimeReply, PULL_TIMEOUT_MS);
        if race.ReplyFirst? && race.reply.Some? {
          state.Replace(race.reply.value, FromBackground);
        }
        return;
      }
      state.browser.Send(RuntimeSend(PullRequest(tab)));
      var first := Awaited(runtimeReply);
      if first.None? {
        return;
      }
      var fetched := OnAfterPull(first.value, tabReply);
      if fetched.None? || fetched.value.None? {
        return;
      }
      if Stringify(state.raw) == Stringify(fetched.value.value) {
        return;
      }
      state.Replace(fetched.value.value, FromSync);
    }

    /**
     * `handleRuntimeMessage` of `ExtensionSyncModule`. In the background, a
     * `pushStateOffscreen` message with a payload replaces the state (source
     * `"offscreen"`) and re-pushes it, with `currentSource` set to
     * `"offscreen"` meanwhile and restored afterwards; a `pullStateOffscreen`
     * message is answered with the current state and keeps the channel open.
     */
    method HandleRuntimeMessage(m: RuntimeMessage, sender: Sender) returns (keepOpen: bool, response: Option<Object>)
      requires variant == ExtensionSync && state.tabId.Some?
      modifies state`raw, state`events, state`currentSource, state.browser`outbox
      ensures state.currentSource == old(state.currentSource)
      ensures match Relay(state.environment, m)
        case RelayIgnore =>
          && state.raw == old(state.raw) && state.events == old(state.events)
          && state.browser.outbox == old(state.browser.outbox)
          && !keepOpen && response.None?
        case RelayApply(p) =>
          && state.raw == p
          && state.events == old(state.events) + [Change("*", ObjectArg(p), |old(state.browser.outbox)|)]
          && state.browser.outbox == old(state.browser.outbox) + PushSends(variant, state.setupDone, state.tabId.value, p)
          && !keepOpen && response.None?
        case RelayAnswer =>
          && state.raw == old(state.raw) && state.events == old(state.events)
          && state.browser.outbox == old(state.browser.outbox)
          && keepOpen && response == Some(old(state.raw))
    {
      keepOpen, response := false, None;
      match Relay(state.environment, m)
      case RelayIgnore =>
      case RelayApply(p) =>
        var previous := state.currentSource;
        state.currentSource := Some(FromOffscreen);
        state.Replace(p, FromOffscreen);
        Push();
        state.currentSource := previous;
      case RelayAnswer =>
        response := Some(state.raw);
        keepOpen := true;
    }

    /**
     * `destroy` as written: the base class removes `configUpdateListener`;
     * the background's `ExtensionSyncModule` first "removes" a freshly bound
     * `handleRuntimeMessage`, which was never registered, so the registered
     * relay handler stays.
     */
    method Destroy()
      requires Valid()
      requires forall h :: h in state.browser.runtimeListeners ==> h.id < state.browser.nextBinding
      modifies state.browser`runtimeListeners, state.browser`nextBinding
      ensures configListener !in state.browser.runtimeListeners
      ensures forall h :: h in state.browser.runtimeListeners <==>
        h in old(state.browser.runtimeListeners) && h != configListener
      ensures relayListener.Some? && relayListener.value in old(state.browser.runtimeListeners) ==>
        relayListener.value in state.browser.runtimeListeners
    {
      if variant == ExtensionSync && state.environment == Background {
        var unbound := state.browser.Bind(HandlerKind.HandleRuntimeMessage);
        state.browser.RemoveRuntimeListener(unbound);
      }
      state.browser.RemoveRuntimeListener(configListener);
    }

    /** `destroy` as intended: both handlers this module registered are removed. */
    method DestroyIntended()
      modifies state.browser`runtimeListeners
      ensures configListener !in state.browser.runtimeListeners
      ensures relayListener.Some? ==> relayListener.value !in state.browser.runtimeListeners
      ensures forall h :: h in state.browser.runtimeListeners <==>
        h in old(state.browser.runtimeListeners) && h != configListener
        && (relayListener.None? || h != relayListener.value)
    {
      if relayListener.Some? {
        state.browser.RemoveRuntimeListener(relayListener.value);
      }
      state.browser.RemoveRuntimeListener(configListener);
    }
  }
}
