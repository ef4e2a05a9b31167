/**
 * The part of the browser's extension APIs one context uses: the sends it
 * makes (runtime and tab messages, storage writes) and the listeners
 * registered on `runtime.onMessage` and `storage.sync.onChanged`.
 */
module Browser {
  import opened Types
  import opened Messages

  /** `ls` with every registration of `h` removed. */
  function Without(ls: seq<Handler>, h: Handler): (r: seq<Handler>)
    ensures forall x :: x in r <==> x in ls && x != h
    ensures |r| <= |ls|
  {
    if ls == [] then []
    else if ls[0] == h then Without(ls[1..], h)
    else [ls[0]] + Without(ls[1..], h)
  }

  class BrowserApi {
    /** Every send made so far, oldest first. */
    var outbox: seq<Outgoing>
    var runtimeListeners: seq<Handler>
    var storageListeners: seq<Handler>
    /** The identity the next `.bind(this)` will produce. */
    var nextBinding: nat

    constructor()
      ensures outbox == [] && runtimeListeners == [] && storageListeners == [] && nextBinding == 0
    {
      outbox := [];
      runtimeListeners := [];
      storageListeners := [];
      nextBinding := 0;
    }

    method Send(o: Outgoing)
      modifies this`outbox
      ensures outbox == old(outbox) + [o]
    {
      outbox := outbox + [o];
    }

    /** `f.bind(this)`: a function object different from every earlier one. */
    method Bind(kind: HandlerKind) returns (h: Handler)
      modifies this`nextBinding
      ensures h == Handler(old(nextBinding), kind)
      ensures nextBinding == old(nextBinding) + 1
    {
      h := Handler(nextBinding, kind);
      nextBinding := nextBinding + 1;
    }

    method AddRuntimeListener(h: Handler)
      modifies this`runtimeListeners
      ensures runtimeListeners == old(runtimeListeners) + [h]
    {
      runtimeListeners := runtimeListeners + [h];
    }

    method RemoveRuntimeListener(h: Handler)
      modifies this`runtimeListeners
      ensures runtimeListeners == Without(old(runtimeListeners), h)
    {
      runtimeListeners := Without(runtimeListeners, h);
    }

    method AddStorageListener(h: Handler)
      modifies this`storageListeners
      ensures storageListeners == old(storageListeners) + [h]
    {
      storageListeners := storageListeners + [h];
    }

    method RemoveStorageListener(h: Handler)
      modifies this`storageListeners
      ensures storageListeners == Without(old(storageListeners), h)
    {
      storageListeners := Without(storageListeners, h);
    }
  }
}
