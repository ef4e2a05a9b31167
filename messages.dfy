/**
 * What travels between contexts and what a context records: sync messages
 * (`SyncMessage`), the sends a context makes, the replies it awaits, the
 * storage notifications it receives and the events its state emits.
 */
module Messages {
  import opened Types
  import opened Objects
  import opened Json

  /**
   * A `SyncMessage`: `kind` is the `type` field and `action` is one of
   * "push", "pull", "tabId", "pushStateOffscreen", "pullStateOffscreen" (any
   * other string may arrive on the channel as well).
   */
  datatype SyncMessage = SyncMessage(
    kind: string,
    action: string,
    data: Option<Object>,
    payload: Option<Object>,
    tabId: int)

  /** Whatever arrives on `runtime.onMessage`: an object, or some other value. */
  datatype RuntimeMessage = NotAnObject | Message(msg: SyncMessage)

  /** The `sender` of a runtime message; `tab` is `sender.tab?.id`. */
  datatype Sender = Sender(tab: Option<int>)

  /** One send a context performs. */
  datatype Outgoing =
    | RuntimeSend(msg: SyncMessage)            // browser.runtime.sendMessage
    | TabSend(tab: int, msg: SyncMessage)      // browser.tabs.sendMessage
    | StorageSet(key: string, text: Text)      // browser.storage.sync.set

  /**
   * How the promise of a send settles: with a reply (`None` for `undefined`)
   * after some milliseconds, by rejecting, or never.
   */
  datatype SendOutcome =
    | Resolved(reply: Option<Object>, afterMs: nat)
    | Rejected(afterMs: nat)
    | NeverSettles

  /** The second argument of a `change` event: a value, or the whole new state. */
  datatype EventArg = ValueArg(v: Value) | ObjectArg(o: Object)

  /**
   * An emitted `change` event with its key (`"*"` for a replacement) and
   * argument; `sentBefore` is how many sends the context had made when it
   * was emitted.
   */
  datatype Event = Change(key: string, arg: EventArg, sentBefore: nat)

  /** One entry of a `storage.onChanged` notification. */
  datatype StorageChange = StorageChange(newValue: Option<Text>)
}
