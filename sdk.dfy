/**
 * The vendor SDK's objects, reduced to what the panel's bookkeeping can be
 * judged by: the references held on them, the callbacks registered with
 * them, and the order in which those calls were made. Everything else about them (their properties, iterators and
 * actions) reaches the model as method arguments.
 */
module Sdk {

  /** One call the panel makes on an SDK object. */
  datatype SdkCall = AddRefCall | ReleaseCall | AddCallbackCall(cb: object) | RemoveCallbackCall(cb: object)

  /** IBMDSwitcher: the connected switcher. */
  class Switcher {
    /** References held on the object (the SDK's own count). */
    var refCount: int
    /** The callback objects registered with AddCallback and not yet removed. */
    var callbacks: multiset<object>
    /** The calls made on the object, oldest first. */
    var calls: seq<SdkCall>

    constructor (refCount: int)
      ensures this.refCount == refCount && callbacks == multiset{} && calls == []
    {
      this.refCount := refCount;
      callbacks := multiset{};
      calls := [];
    }

    method AddRef()
      modifies this
      ensures refCount == old(refCount) + 1 && callbacks == old(callbacks)
      ensures calls == old(calls) + [AddRefCall]
    {
      calls := calls + [AddRefCall];
      refCount := refCount + 1;
    }

    method Release()
      modifies this
      ensures refCount == old(refCount) - 1 && callbacks == old(callbacks)
      ensures calls == old(calls) + [ReleaseCall]
    {
      calls := calls + [ReleaseCall];
      refCount := refCount - 1;
    }

    method AddCallback(cb: object)
      modifies this
      ensures callbacks == old(callbacks) + multiset{cb} && refCount == old(refCount)
      ensures calls == old(calls) + [AddCallbackCall(cb)]
    {
      calls := calls + [AddCallbackCall(cb)];
      callbacks := callbacks + multiset{cb};
    }

    method RemoveCallback(cb: object)
      modifies this
      ensures callbacks == old(callbacks) - multiset{cb} && refCount == old(refCount)
      ensures calls == old(calls) + [RemoveCallbackCall(cb)]
    {
      calls := calls + [RemoveCallbackCall(cb)];
      callbacks := callbacks - multiset{cb};
    }
  }

  /** IBMDSwitcherMixEffectBlock: one mix effect block of the switcher. */
  class MixEffectBlock {
    /** References held on the object (the SDK's own count). */
    var refCount: int
    /** The callback objects registered with AddCallback and not yet removed. */
    var callbacks: multiset<object>
    /** The calls made on the object, oldest first. */
    var calls: seq<SdkCall>

    constructor (refCount: int)
      ensures this.refCount == refCount && callbacks == multiset{} && calls == []
    {
      this.refCount := refCount;
      callbacks := multiset{};
      calls := [];
    }

    method AddRef()
      modifies this
      ensures refCount == old(refCount) + 1 && callbacks == old(callbacks)
      ensures calls == old(calls) + [AddRefCall]
    {
      calls := calls + [AddRefCall];
      refCount := refCount + 1;
    }

    method Release()
      modifies this
      ensures refCount == old(refCount) - 1 && callbacks == old(callbacks)
      ensures calls == old(calls) + [ReleaseCall]
    {
      calls := calls + [ReleaseCall];
      refCount := refCount - 1;
    }

    method AddCallback(cb: object)
      modifies this
      ensures callbacks == old(callbacks) + multiset{cb} && refCount == old(refCount)
      ensures calls == old(calls) + [AddCallbackCall(cb)]
    {
      calls := calls + [AddCallbackCall(cb)];
      callbacks := callbacks + multiset{cb};
    }

    method RemoveCallback(cb: object)
      modifies this
      ensures callbacks == old(callbacks) - multiset{cb} && refCount == old(refCount)
      ensures calls == old(calls) + [RemoveCallbackCall(cb)]
    {
      calls := calls + [RemoveCallbackCall(cb)];
      callbacks := callbacks - multiset{cb};
    }
  }

  /** IBMDSwitcherInput: one video input of the switcher. */
  class SwitcherInput {
    /** References held on the object (the SDK's own count). */
    var refCount: int
    /** The callback objects registered with AddCallback and not yet removed. */
    var callbacks: multiset<object>
    /** The calls made on the object, oldest first. */
    var calls: seq<SdkCall>

    constructor (refCount: int)
      ensures this.refCount == refCount && callbacks == multiset{} && calls == []
    {
      this.refCount := refCount;
      callbacks := multiset{};
      calls := [];
    }

    method AddRef()
      modifies this
      ensures refCount == old(refCount) + 1 && callbacks == old(callbacks)
      ensures calls == old(calls) + [AddRefCall]
    {
      calls := calls + [AddRefCall];
      refCount := refCount + 1;
    }

    method Release()
      modifies this
      ensures refCount == old(refCount) - 1 && callbacks == old(callbacks)
      ensures calls == old(calls) + [ReleaseCall]
    {
      calls := calls + [ReleaseCall];
      refCount := refCount - 1;
    }

    method AddCallback(cb: object)
      modifies this
      ensures callbacks == old(callbacks) + multiset{cb} && refCount == old(refCount)
      ensures calls == old(calls) + [AddCallbackCall(cb)]
    {
      calls := calls + [AddCallbackCall(cb)];
      callbacks := callbacks + multiset{cb};
    }

    method RemoveCallback(cb: object)
      modifies this
      ensures callbacks == old(callbacks) - multiset{cb} && refCount == old(refCount)
      ensures calls == old(calls) + [RemoveCallbackCall(cb)]
    {
      calls := calls + [RemoveCallbackCall(cb)];
      callbacks := callbacks - multiset{cb};
    }
  }
}
