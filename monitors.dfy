/**
 * The three callback objects the SDK calls on its own threads. Each keeps a
 * COM reference count and turns SDK events into window messages; posting a
 * message appends it to the dialog window's queue.
 */
module Monitors {
  import opened Wrappers
  import opened Messages
  import opened RefCounting
  import opened Sdk

  /** The dialog's window, seen through the messages posted to it. */
  class Window {
    var posted: seq<Msg>

    constructor ()
      ensures posted == []
    {
      posted := [];
    }
  }

  /** Watches property changes on the mix effect block. */
  class MixEffectBlockMonitor {
    const window: Window
    var refCount: int
    var alive: bool

    function State(): RefState
      reads this
    {
      RefState(refCount, alive)
    }

    constructor (window: Window)
      ensures this.window == window && State() == Created
    {
      this.window := window;
      refCount := 1;
      alive := true;
    }

    method QueryInterface(iid: Iid, ppv: OutSlot) returns (hr: HResult, ppvOut: OutSlot)
      requires alive
      modifies this
      ensures QueryResult(hr, ppvOut, State()) == Query(IMixEffectBlockCallback, old(State()), iid, ppv)
    {
      if ppv.NullOut? {
        return E_POINTER, ppv;
      }
      if iid == IMixEffectBlockCallback {
        var count := AddRef();
        return S_OK, Out(Some(IMixEffectBlockCallback));
      }
      if iid == IUnknown {
        var count := AddRef();
        return S_OK, Out(Some(IUnknown));
      }
      return E_NOINTERFACE, Out(None);
    }

    method AddRef() returns (newCount: int)
      requires alive
      modifies this
      ensures State() == AddRefStep(old(State())) && newCount == refCount
    {
      refCount := refCount + 1;
      newCount := refCount;
    }

    method Release() returns (newCount: int)
      requires alive
      modifies this
      ensures State() == ReleaseStep(old(State())) && newCount == refCount
    {
      refCount := refCount - 1;
      newCount := refCount;
      if newCount == 0 {
        alive := false;
      }
    }

    method PropertyChanged(propertyId: MixEffectBlockPropertyId) returns (hr: HResult)
      requires alive
      modifies window
      ensures window.posted == old(window.posted) + Posted(MixEffectBlockMessage(propertyId))
      ensures hr == S_OK
    {
      match propertyId {
        case ProgramInput =>
          window.posted := window.posted + [ProgramInputChanged];
        case PreviewInput =>
          window.posted := window.posted + [PreviewInputChanged];
        case InTransition =>
          window.posted := window.posted + [InTransitionChanged];
        case TransitionPosition =>
          window.posted := window.posted + [TransitionPositionChanged];
        case TransitionFramesRemaining =>
          window.posted := window.posted + [TransitionFramesRemainingChanged];
        case FadeToBlackFramesRemaining =>
          window.posted := window.posted + [FadeToBlackFramesRemainingChanged];
        case OtherProperty(_) =>
          // other property changes are not used by the panel
      }
      return S_OK;
    }
  }

  /**
   * Watches one switcher input for name changes. It holds a reference on its
   * input and is registered with it from construction until deletion.
   */
  class InputMonitor {
    const input: SwitcherInput
    const window: Window
    var refCount: int
    var alive: bool

    function State(): RefState
      reads this
    {
      RefState(refCount, alive)
    }

    constructor (input: SwitcherInput, window: Window)
      modifies input
      ensures this.input == input && this.window == window && State() == Created
      ensures input.refCount == old(input.refCount) + 1
      ensures input.callbacks == old(input.callbacks) + multiset{this}
      ensures input.calls == old(input.calls) + [AddRefCall, AddCallbackCall(this)]
    {
      this.input := input;
      this.window := window;
      refCount := 1;
      alive := true;
      new;
      input.AddRef();
      input.AddCallback(this);
    }

    method QueryInterface(iid: Iid, ppv: OutSlot) returns (hr: HResult, ppvOut: OutSlot)
      requires alive
      modifies this
      ensures QueryResult(hr, ppvOut, State()) == Query(IInputCallback, old(State()), iid, ppv)
    {
      if ppv.NullOut? {
        return E_POINTER, ppv;
      }
      if iid == IInputCallback {
        var count := AddRef();
        return S_OK, Out(Some(IInputCallback));
      }
      if iid == IUnknown {
        var count := AddRef();
        return S_OK, Out(Some(IUnknown));
      }
      return E_NOINTERFACE, Out(None);
    }

    method AddRef() returns (newCount: int)
      requires alive
      modifies this
      ensures State() == AddRefStep(old(State())) && newCount == refCount
    {
      refCount := refCount + 1;
      newCount := refCount;
    }

    /**
     * Deleting the monitor runs its destructor, which undoes what the
     * constructor did to the input: it unregisters first and only then gives
     * back its reference.
     */
    method Release() returns (newCount: int)
      requires alive
      modifies this, input
      ensures State() == ReleaseStep(old(State())) && newCount == refCount
      ensures newCount == 0 ==> input.callbacks == old(input.callbacks) - multiset{this}
      ensures newCount == 0 ==> input.refCount == old(input.refCount) - 1
      ensures newCount == 0 ==> input.calls == old(input.calls) + [RemoveCallbackCall(this), ReleaseCall]
      ensures newCount != 0 ==> unchanged(input)
    {
      refCount := refCount - 1;
      newCount := refCount;
      if newCount == 0 {
        alive := false;
        input.RemoveCallback(this);
        input.Release();
      }
    }

    method Notify(eventType: InputEventType) returns (hr: HResult)
      requires alive
      modifies window
      ensures window.posted == old(window.posted) + Posted(InputEventMessage(eventType))
      ensures hr == S_OK
    {
      if eventType == LongNameChanged {
        window.posted := window.posted + [InputLongNameChanged];
      }
      return S_OK;
    }
  }

  /** Watches the switcher for disconnection. */
  class SwitcherMonitor {
    const window: Window
    var refCount: int
    var alive: bool

    function State(): RefState
      reads this
    {
      RefState(refCount, alive)
    }

    constructor (window: Window)
      ensures this.window == window && State() == Created
    {
      this.window := window;
      refCount := 1;
      alive := true;
    }

    method QueryInterface(iid: Iid, ppv: OutSlot) returns (hr: HResult, ppvOut: OutSlot)
      requires alive
      modifies this
      ensures QueryResult(hr, ppvOut, State()) == Query(ISwitcherCallback, old(State()), iid, ppv)
    {
      if ppv.NullOut? {
        return E_POINTER, ppv;
      }
      if iid == ISwitcherCallback {
        var count := AddRef();
        return S_OK, Out(Some(ISwitcherCallback));
      }
      if iid == IUnknown {
        var count := AddRef();
        return S_OK, Out(Some(IUnknown));
      }
      return E_NOINTERFACE, Out(None);
    }

    method AddRef() returns (newCount: int)
      requires alive
      modifies this
      ensures State() == AddRefStep(old(State())) && newCount == refCount
    {
      refCount := refCount + 1;
      newCount := refCount;
    }

    method Release() returns (newCount: int)
      requires alive
      modifies this
      ensures State() == ReleaseStep(old(State())) && newCount == refCount
    {
      refCount := refCount - 1;
      newCount := refCount;
      if newCount == 0 {
        alive := false;
      }
    }

    /** The video mode argument is not used. */
    method Notify(eventType: SwitcherEventType, videoMode: int) returns (hr: HResult)
      requires alive
      modifies window
      ensures window.posted == old(window.posted) + Posted(SwitcherEventMessage(eventType))
      ensures hr == S_OK
    {
      if eventType == Disconnected {
        window.posted := window.posted + [SwitcherDisconnected];
      }
      return S_OK;
    }
  }

  /**
   * Registration and reference balance over any InputMonitor lifetime: the
   * monitor is created, receives the AddRef/Release calls ops (the
   * references the SDK and the panel take and drop) in an order that never
   * lets its count reach zero early, and is released once more than it is
   * AddRef'd. It ends deleted, and its input is as it was before the monitor
   * existed, having seen exactly the constructor's AddRef and AddCallback
   * and then the destructor's RemoveCallback and Release.
   */
  method InputMonitorLifetime(input: SwitcherInput, window: Window, ops: seq<RefOp>) returns (m: InputMonitor)
    requires forall k :: 0 <= k < |ops| ==> 1 + Net(ops[..k]) > 0
    requires Net(ops) == -1
    modifies input
    ensures fresh(m) && m.input == input && !m.alive && m.refCount == 0
    ensures input.refCount == old(input.refCount) && input.callbacks == old(input.callbacks)
    ensures input.calls == old(input.calls) + [AddRefCall, AddCallbackCall(m)] + [RemoveCallbackCall(m), ReleaseCall]
  {
    m := new InputMonitor(input, window);
    var i := 0;
    while i < |ops|
      invariant 0 <= i <= |ops|
      invariant m.refCount == 1 + Net(ops[..i])
      invariant m.alive <==> m.refCount != 0
      invariant m.alive ==>
                  input.refCount == old(input.refCount) + 1 &&
                  input.callbacks == old(input.callbacks) + multiset{m} &&
                  input.calls == old(input.calls) + [AddRefCall, AddCallbackCall(m)]
      invariant !m.alive ==>
                  input.refCount == old(input.refCount) &&
                  input.callbacks == old(input.callbacks) &&
                  input.calls == old(input.calls) + [AddRefCall, AddCallbackCall(m)] + [RemoveCallbackCall(m), ReleaseCall]
    {
      var count;
      if ops[i] == AddRefOp {
        count := m.AddRef();
      } else {
        count := m.Release();
        assert old(input.callbacks) + multiset{m} - multiset{m} == old(input.callbacks);
      }
      NetAppend(ops[..i], ops[i]);
      assert ops[..i + 1] == ops[..i] + [ops[i]];
      i := i + 1;
    }
    assert ops[..i] == ops;
  }
}
