/**
 * Persistence of a state's persistent keys in the browser's synced storage:
 * one JSON record under `"plasmo-sync"`, written on user changes of a
 * persistent key and applied key by key when it arrives or is first fetched.
 */
module Persistence {
  import opened Types
  import opened Objects
  import opened Json
  import opened Messages
  import opened SyncProtocol
  import opened Browser
  import opened Container

  /** The one storage key the record lives under. */
  const STORAGE_KEY := "plasmo-sync"

  /**
   * The persistent part of a state: its entries whose key is persistent, in
   * the state's order (`Object.fromEntries(Object.entries(s).filter(...))`).
   */
  function PersistentSubset(raw: Object, persistent: seq<string>): (r: Object)
    ensures forall k :: k in Keys(r) <==> k in Keys(raw) && k in persistent
    ensures forall k :: Lookup(r, k) == if k in persistent then Lookup(raw, k) else None
    decreases |raw|
  {
    if raw == [] then []
    else
      TailOfObject(raw);
      KeysCons(raw);
      var rest := PersistentSubset(raw[1..], persistent);
      if raw[0].0 in persistent then
        ConsObject(raw[0], rest);
        [raw[0]] + rest
      else
        rest
  }

  /**
   * The storage write `onStateChange` makes: one entry under `"plasmo-sync"`
   * whose text parses back to exactly the persistent keys with their values.
   */
  function RecordWrite(raw: Object, persistent: seq<string>): (w: Outgoing)
    ensures w.StorageSet? && w.key == STORAGE_KEY && Parse(w.text).Ok?
    ensures forall k :: k in Keys(Parse(w.text).value) <==> k in Keys(raw) && k in persistent
    ensures forall k :: k in persistent ==> Lookup(Parse(w.text).value, k) == Lookup(raw, k)
  {
    StorageSet(STORAGE_KEY, Stringify(PersistentSubset(raw, persistent)))
  }

  /** Whether a change of `key` with this source is written to storage. */
  predicate WritesRecord(source: ChangeSource, key: string, persistent: seq<string>) {
    source == User && key in persistent
  }

  /**
   * The same test applied to a `change` event as the state emits it: the
   * listener reads the event's second argument, the new value, as the
   * source, so it passes only when that value is the string `"user"`.
   */
  predicate WritesRecordAsEmitted(ev: Event, persistent: seq<string>) {
    ev.arg == ValueArg(Str("user")) && ev.key in persistent
  }

  /**
   * The event a user's proxy write emits does not make the listener write
   * the record, although the change is a user change of a persistent key;
   * writing the string `"user"` does, whatever the change's source.
   */
  lemma EmittedValueIsReadAsSource(key: string, persistent: seq<string>, mark: nat)
    requires key in persistent
    ensures WritesRecord(User, key, persistent)
    ensures !WritesRecordAsEmitted(Change(key, ValueArg(Num(1)), mark), persistent)
    ensures WritesRecordAsEmitted(Change(key, ValueArg(Str("user")), mark), persistent)
    ensures !WritesRecord(FromStorage, key, persistent)
  {
  }

  /**
   * Applying a written record in another context: every persistent key of
   * the writer's state gets the writer's value, every other key keeps the
   * reader's value.
   */
  lemma {:induction false} RecordRoundTrip(writer: Object, persistent: seq<string>, reader: Object, k: string)
    ensures Parse(RecordWrite(writer, persistent).text).Ok?
    ensures Lookup(Assign(reader, Parse(RecordWrite(writer, persistent).text).value), k) ==
      if k in persistent && k in Keys(writer) then Lookup(writer, k) else Lookup(reader, k)
  {
    var record := PersistentSubset(writer, persistent);
    AssignLookup(reader, record, k);
  }

  /**
   * The sends of writing the entries of `es` one after another through the
   * proxy, starting from `s`: each write's push, in order. Its contract only
   * records that there are none without a module or before setup.
   */
  function WritePushes(variant: Option<Variant>, setupDone: bool, tabId: Option<int>, s: Object, es: Object): (r: seq<Outgoing>)
    requires variant.Some? ==> tabId.Some?
    ensures variant.None? || !setupDone ==> r == []
    decreases |es|
  {
    if es == [] then []
    else
      TailOfObject(es);
      var next := Put(s, es[0].0, es[0].1);
      ModulePushSends(variant, setupDone, tabId, next) + WritePushes(variant, setupDone, tabId, next, es[1..])
  }

  /**
   * The loop of `#handlePersistentDataUpdate`: write every entry of `record`
   * through the proxy, in order. Each write stores its value, makes its push
   * and emits its `change` event, all while `currentSource` is `"storage"`.
   */
  method WriteEntries(st: State, record: Object)
    requires st.Valid() && st.currentSource == Some(FromStorage)
    modifies st`raw, st`events, st.browser`outbox
    ensures st.Valid()
    ensures st.raw == Assign(old(st.raw), record)
    ensures st.browser.outbox == old(st.browser.outbox) +
      WritePushes(st.ModuleVariant(), st.setupDone, st.tabId, old(st.raw), record)
    ensures |st.events| >= |old(st.events)|
    ensures st.events[..|old(st.events)|] == old(st.events)
    ensures EventsOfEntries(st.events[|old(st.events)|..], record)
  {
    ghost var raw0 := st.raw;
    ghost var events0 := st.events;
    ghost var outbox0 := st.browser.outbox;
    ghost var emitted: seq<Event> := [];
    var i := 0;
    assert record[i..] == record;
    while i < |record|
      invariant 0 <= i <= |record|
      invariant Written(st, record, i, raw0, outbox0, events0, emitted)
    {
      emitted := WriteOne(st, record, i, raw0, outbox0, events0, emitted);
      i := i + 1;
    }
    assert record[..i] == record;
    assert st.events[|events0|..] == emitted;
  }

  /**
   * The first `i` entries of `record` have been written: what remains to be
   * written and sent is what writing the rest would do from here.
   */
  ghost predicate Written(st: State, record: Object, i: nat, raw0: Object, outbox0: seq<Outgoing>,
                          events0: seq<Event>, emitted: seq<Event>)
    reads st, st.browser
  {
    && i <= |record|
    && st.Valid()
    && UniqueKeys(record[i..])
    && Assign(st.raw, record[i..]) == Assign(raw0, record)
    && outbox0 + WritePushes(st.ModuleVariant(), st.setupDone, st.tabId, raw0, record) ==
         st.browser.outbox + WritePushes(st.ModuleVariant(), st.setupDone, st.tabId, st.raw, record[i..])
    && st.events == events0 + emitted
    && EventsOfEntries(emitted, record[..i])
  }

  /** One iteration of the loop: the proxy write of entry `i`. */
  method WriteOne(st: State, record: Object, i: nat, ghost raw0: Object, ghost outbox0: seq<Outgoing>,
                  ghost events0: seq<Event>, ghost emitted: seq<Event>) returns (ghost emitted': seq<Event>)
    requires i < |record| && Written(st, record, i, raw0, outbox0, events0, emitted)
    modifies st`raw, st`events, st.browser`outbox
    ensures Written(st, record, i + 1, raw0, outbox0, events0, emitted')
  {
    ghost var variant := st.ModuleVariant();
    ghost var done := st.setupDone;
    ghost var tab := st.tabId;
    WriteStep(variant, done, tab, st.raw, record, i);
    ghost var before := st.browser.outbox;
    ghost var push := ModulePushSends(variant, done, tab, Put(st.raw, record[i].0, record[i].1));
    ghost var later := WritePushes(variant, done, tab, Put(st.raw, record[i].0, record[i].1), record[i + 1..]);
    ghost var events1 := st.events;
    var ok := st.Set(record[i].0, record[i].1);
    Regroup(outbox0 + WritePushes(variant, done, tab, raw0, record), before, push, later, st.browser.outbox);
    ghost var e := Change(record[i].0, ValueArg(record[i].1), |st.browser.outbox|);
    Extend(events1, events0, emitted, [e], st.events);
    EventsOfEntriesSnoc(emitted, record[..i], e, record[i]);
    emitted' := emitted + [e];
  }

  /** One write done: the remaining work starts from the written state. */
  lemma WriteStep(variant: Option<Variant>, setupDone: bool, tabId: Option<int>, s: Object, record: Object, i: nat)
    requires variant.Some? ==> tabId.Some?
    requires i < |record| && UniqueKeys(record[i..])
    ensures record[..i + 1] == record[..i] + [record[i]]
    ensures UniqueKeys(record[i + 1..])
    ensures Assign(s, record[i..]) == Assign(Put(s, record[i].0, record[i].1), record[i + 1..])
    ensures WritePushes(variant, setupDone, tabId, s, record[i..]) ==
      ModulePushSends(variant, setupDone, tabId, Put(s, record[i].0, record[i].1))
      + WritePushes(variant, setupDone, tabId, Put(s, record[i].0, record[i].1), record[i + 1..])
  {
    var rest: Object := record[i..];
    assert rest[0] == record[i];
    assert rest[1..] == record[i + 1..];
    TailOfObject(rest);
  }

  /** Moving one write's part from the pending part to the done part. */
  lemma Regroup<T>(all: seq<T>, before: seq<T>, push: seq<T>, later: seq<T>, after: seq<T>)
    requires all == before + (push + later) && after == before + push
    ensures all == after + later
  {
  }

  /** Appending to a sequence that is already split in two. */
  lemma Extend<T>(mid: seq<T>, a: seq<T>, b: seq<T>, c: seq<T>, whole: seq<T>)
    requires mid == a + b && whole == mid + c
    ensures whole == a + (b + c)
  {
  }

  /** The `change` events of proxy writes of `es`: one per entry, with its key and value. */
  predicate EventsOfEntries(evs: seq<Event>, es: Entries) {
    && |evs| == |es|
    && forall j :: 0 <= j < |evs| ==> evs[j].key == es[j].0 && evs[j].arg == ValueArg(es[j].1)
  }

  lemma EventsOfEntriesSnoc(evs: seq<Event>, es: Entries, e: Event, x: (string, Value))
    requires EventsOfEntries(evs, es) && e.key == x.0 && e.arg == ValueArg(x.1)
    ensures EventsOfEntries(evs + [e], es + [x])
  {
  }

  /**
   * A storage record has been applied to `st`: the state is the record
   * written over the old one key by key, each write made its push and emitted
   * its `change` event, and `currentSource` was left at `"user"`.
   */
  twostate predicate RecordApplied(st: State, record: Object)
    reads st, st.browser
  {
    && st.Valid()
    && old(st.Valid())
    && st.raw == Assign(old(st.raw), record)
    && st.currentSource == Some(User)
    && st.browser.outbox == old(st.browser.outbox) +
         WritePushes(st.ModuleVariant(), st.setupDone, st.tabId, old(st.raw), record)
    && |st.events| >= |old(st.events)|
    && st.events[..|old(st.events)|] == old(st.events)
    && EventsOfEntries(st.events[|old(st.events)|..], record)
  }

  class Persistence {
    /** The state this persists; `destroy` sets it to `null`. */
    var state: State?
    const browser: BrowserApi
    /** The bound `onStateChange`, registered for the state's `change` events. */
    const changeListener: Handler
    /** The bound `onBrowserStorageUpdate`, registered on `storage.sync.onChanged`. */
    const storageListener: Handler

    ghost predicate Valid()
      reads this
    {
      state != null ==> state.browser == browser
    }

    /** The state, as the set of objects it is (empty once dropped). */
    function Held(): set<State>
      reads this`state
    {
      if state == null then {} else {state}
    }

    /**
     * The constructor: bind and register both listeners. Its call of
     * `fetchStateFromStorage` awaits the storage read first; that read's
     * result is the argument of `FetchStateFromStorage`.
     */
    constructor(state: State)
      modifies state`changeListeners, state.browser`storageListeners, state.browser`nextBinding
      ensures Valid() && this.state == state && browser == state.browser
      ensures changeListener == Handler(old(state.browser.nextBinding), HandlerKind.OnStateChange)
      ensures storageListener == Handler(old(state.browser.nextBinding) + 1, HandlerKind.OnBrowserStorageUpdate)
      ensures state.changeListeners == old(state.changeListeners) + [changeListener]
      ensures state.browser.storageListeners == old(state.browser.storageListeners) + [storageListener]
      ensures state.browser.nextBinding == old(state.browser.nextBinding) + 2
    {
      var b := state.browser;
      var c := b.Bind(HandlerKind.OnStateChange);
      state.AddChangeListener(c);
      var u := b.Bind(HandlerKind.OnBrowserStorageUpdate);
      b.AddStorageListener(u);
      this.state := state;
      browser := b;
      changeListener := c;
      storageListener := u;
    }

    /**
     * `onStateChange(key, source)`: a user change of a persistent key writes
     * the state's persistent subset as the record; anything else writes
     * nothing. Reading the state after `destroy` throws.
     */
    method OnStateChange(key: string, source: ChangeSource) returns (outcome: Outcome)
      requires Valid()
      modifies browser`outbox
      ensures source != User ==> outcome == Completed && browser.outbox == old(browser.outbox)
      ensures source == User && state == null ==>
        outcome == Threw(TypeError) && browser.outbox == old(browser.outbox)
      ensures source == User && state != null ==>
        && outcome == Completed
        && browser.outbox == old(browser.outbox) +
             if WritesRecord(source, key, state.persistent) then [RecordWrite(state.raw, state.persistent)] else []
    {
      if source != User {
        return Completed;
      }
      if state == null {
        return Threw(TypeError);
      }
      if !state.KeyIsPersistent(key) {
        return Completed;
      }
      browser.Send(RecordWrite(state.raw, state.persistent));
      outcome := Completed;
    }

    /**
     * `#handlePersistentDataUpdate(text)`: parse the record, then write each
     * of its entries through the proxy with `currentSource` at `"storage"`,
     * and set `currentSource` to `"user"` afterwards. Setting
     * `currentSource` on a dropped state throws.
     */
    method HandlePersistentDataUpdate(text: Text) returns (outcome: Outcome)
      requires Valid() && (state != null ==> state.Valid())
      modifies Held()`raw, Held()`events, Held()`currentSource, browser`outbox
      ensures Parse(text).Err? ==>
        && outcome == Threw(SyntaxError)
        && (state != null ==> unchanged(state)) && browser.outbox == old(browser.outbox)
      ensures Parse(text).Ok? && state == null ==>
        outcome == Threw(TypeError) && browser.outbox == old(browser.outbox)
      ensures Parse(text).Ok? && state != null ==>
        outcome == Completed && RecordApplied(state, Parse(text).value)
    {
      var parsed := Parse(text);
      if parsed.Err? {
        return Threw(parsed.error);
      }
      if state == null {
        return Threw(TypeError);
      }
      var record := parsed.value;
      state.currentSource := Some(FromStorage);
      WriteEntries(state, record);
      state.currentSource := Some(User);
      outcome := Completed;
    }

    /**
     * `onBrowserStorageUpdate(update)`: only an update that has the
     * `"plasmo-sync"` entry matters, and its `newValue` is applied; a removed
     * record (no `newValue`) makes `JSON.parse` throw.
     */
    method OnBrowserStorageUpdate(update: map<string, StorageChange>) returns (outcome: Outcome)
      requires Valid() && (state != null ==> state.Valid())
      modifies Held()`raw, Held()`events, Held()`currentSource, browser`outbox
      ensures STORAGE_KEY !in update ==>
        outcome == Completed && (state != null ==> unchanged(state)) && browser.outbox == old(browser.outbox)
      ensures STORAGE_KEY in update && (update[STORAGE_KEY].newValue.None? || Parse(update[STORAGE_KEY].newValue.value).Err?) ==>
        outcome == Threw(SyntaxError) && (state != null ==> unchanged(state)) && browser.outbox == old(browser.outbox)
      ensures STORAGE_KEY in update && update[STORAGE_KEY].newValue.Some? ==>
        var text := update[STORAGE_KEY].newValue.value;
        && (Parse(text).Ok? && state == null ==> outcome == Threw(TypeError) && browser.outbox == old(browser.outbox))
        && (Parse(text).Ok? && state != null ==> outcome == Completed && RecordApplied(state, Parse(text).value))
    {
      if STORAGE_KEY !in update {
        return Completed;
      }
      var change := update[STORAGE_KEY];
      if change.newValue.None? {
        return Threw(SyntaxError);
      }
      outcome := HandlePersistentDataUpdate(change.newValue.value);
    }

    /**
     * `fetchStateFromStorage`, from the point where the storage read
     * returns `stored`: a missing or empty record changes nothing; otherwise
     * the record is applied and, when that does not throw, readiness
     * advances by one.
     */
    method FetchStateFromStorage(stored: Option<Text>) returns (outcome: Outcome)
      requires Valid() && (state != null ==> state.Valid())
      modifies Held()`raw, Held()`events, Held()`currentSource, Held()`readyProgress, browser`outbox
      ensures stored.None? || !Truthy(stored.value) ==>
        outcome == Completed && (state != null ==> unchanged(state)) && browser.outbox == old(browser.outbox)
      ensures state != null ==>
        state.readyProgress == old(state.readyProgress) + (if outcome == Completed && stored.Some? && Truthy(stored.value) then 1 else 0)
      ensures stored.Some? && Truthy(stored.value) && Parse(stored.value).Err? ==>
        outcome == Threw(SyntaxError) && (state != null ==> unchanged(state)) && browser.outbox == old(browser.outbox)
      ensures stored.Some? && Truthy(stored.value) && Parse(stored.value).Ok? && state == null ==>
        outcome == Threw(TypeError) && browser.outbox == old(browser.outbox)
      ensures stored.Some? && Truthy(stored.value) && Parse(stored.value).Ok? && state != null ==>
        outcome == Completed && RecordApplied(state, Parse(stored.value).value)
    {
      if stored.None? || !Truthy(stored.value) {
        return Completed;
      }
      outcome := HandlePersistentDataUpdate(stored.value);
      if outcome == Completed {
        state.IncreaseReadyProgress();
      }
    }

    /**
     * `destroy`: unregister both listeners and drop the state. A second
     * `destroy` throws on the dropped state before unregistering anything.
     */
    method Destroy() returns (outcome: Outcome)
      requires Valid()
      modifies this`state, Held()`changeListeners, browser`storageListeners
      ensures old(state) == null ==>
        outcome == Threw(TypeError) && state == null && browser.storageListeners == old(browser.storageListeners)
      ensures old(state) != null ==>
        && outcome == Completed && state == null
        && old(state).changeListeners == Without(old(state.changeListeners), changeListener)
        && browser.storageListeners == Without(old(browser.storageListeners), storageListener)
    {
      if state == null {
        return Threw(TypeError);
      }
      state.RemoveChangeListener(changeListener);
      state := null;
      browser.RemoveStorageListener(storageListener);
      outcome := Completed;
    }
  }
}
