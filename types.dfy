/**
 * The value types shared by every part of the state-replication model:
 * environments, change sources, JSON-like values, sync messages, what a
 * context sends, and the events its state container emits.
 */
module Types {

  datatype Option<+T> = None | Some(value: T)

  /** The extension context that hosts a state instance (`StateEnvironment`). */
  datatype Environment = Popup | Background | Content | Offscreen

  /** The tag carried by a change (`ChangeSource`). */
  datatype ChangeSource =
    | User
    | FromContent
    | FromBackground
    | FromStorage
    | FromSync
    | FromOffscreen

  /**
   * A JSON-serialisable value held under one key of the state. Numbers are
   * integers; nested objects keep their entries in order. Unlike the state
   * itself (`Objects.Object`), a nested object's entries are not required to
   * have distinct keys: the model stores and compares such values but never
   * reads inside them, so lemmas over `Value` (such as
   * `Json.StringifyInjective`) also range over entry lists that no JavaScript
   * object can hold.
   */
  datatype Value =
    | Null
    | Bool(b: bool)
    | Num(n: int)
    | Str(s: string)
    | Arr(items: seq<Value>)
    | Obj(fields: seq<(string, Value)>)

  /** `SetupConfig`: the optional persistent key list and the optional fixed tab id. */
  datatype SetupConfig = SetupConfig(persistent: Option<seq<string>>, tabId: Option<int>)

  /** A tab as reported by the tabs API: its id may be missing. */
  datatype Tab = Tab(id: Option<int>, active: bool)

  /** The identity of a bound listener function. */
  datatype HandlerKind =
    | ConfigUpdateListener
    | HandleRuntimeMessage
    | OnStateChange
    | OnBrowserStorageUpdate

  /** Every `.bind(this)` yields a new function object, told apart by `id`. */
  datatype Handler = Handler(id: nat, kind: HandlerKind)

  /** The errors the modelled code can throw. */
  datatype JsError = SyntaxError | TypeError

  /** How a synchronous handler ended: normally, or by throwing. */
  datatype Outcome = Completed | Threw(error: JsError)

  /** A computed value, or the error its computation throws. */
  datatype Result<+T> = Ok(value: T) | Err(error: JsError)
}
