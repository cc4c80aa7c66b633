/**
 * Whole connection sessions of the panel: what a successful connect
 * followed by a disconnect leaves behind on the device objects, and what a
 * disconnect does to a panel that is already disconnected.
 */
module Lifecycle {
  import opened Wrappers
  import opened RefCounting
  import opened Sdk
  import opened Monitors
  import opened SwitcherPanel

  /**
   * The input-monitor loop of a connect followed by the releasing loop of a
   * disconnect: one monitor was made per input and each has been
   * destroyed, and every input ends with the references and callbacks it
   * started with.
   */
  method InputMonitorsBalance(d: SwitcherPanelDlg, inputs: seq<SwitcherInput>)
    requires d.Valid() && !d.connectEnabled && d.inputMonitors == [] && DistinctInputs(inputs)
    modifies d`inputMonitors, set x | x in inputs
    ensures |d.inputMonitors| == |inputs|
    ensures forall k :: 0 <= k < |inputs| ==> d.inputMonitors[k].input == inputs[k] && !d.inputMonitors[k].alive
    ensures forall k :: 0 <= k < |inputs| ==>
              inputs[k].refCount == old(inputs[k].refCount) && inputs[k].callbacks == old(inputs[k].callbacks)
    ensures forall k :: 0 <= k < |inputs| ==>
              inputs[k].calls == old(inputs[k].calls) +
                [AddRefCall, AddRefCall, AddCallbackCall(d.inputMonitors[k]), ReleaseCall] +
                [RemoveCallbackCall(d.inputMonitors[k]), ReleaseCall]
  {
    d.CreateInputMonitors(inputs);
    label Up:
    var ms := d.inputMonitors;
    SwitcherPanelDlg.ReleaseInputMonitors(ms);
    forall k | 0 <= k < |inputs|
      ensures inputs[k].refCount == old(inputs[k].refCount)
      ensures inputs[k].callbacks == old(inputs[k].callbacks)
      ensures inputs[k].calls == old(inputs[k].calls) +
                [AddRefCall, AddRefCall, AddCallbackCall(ms[k]), ReleaseCall] + [RemoveCallbackCall(ms[k]), ReleaseCall]
    {
      assert ReleasedOnce@Up(ms[k]);
    }
  }

  /**
   * A whole session, as seen by the inputs: a click on Connect that
   * ConnectTo answers with switcher s, followed by the switcher's
   * disconnection, which leaves the panel disconnected again. When the
   * inputs were enumerated, the monitors ms made for them have all been
   * destroyed, and every input ends with the references and registrations
   * it started with; each input saw its monitor registered, and later
   * unregistered before its reference was given back.
   */
  method SessionInputsBalance(d: SwitcherPanelDlg, s: Switcher, r: ConnectReadings) returns (ms: seq<InputMonitor>)
    requires d.Valid() && d.connectEnabled && d.switcher == null && DistinctInputs(r.inputs)
    modifies d`connectEnabled, d`switcher, d`inputMonitors, d`mixEffectBlock
    modifies d`currentTransitionReachedHalfway, d`sliderPos
    modifies s, ReadingObjects(r), d.comboProgram, d.comboPreview
    ensures d.Valid() && d.connectEnabled && d.switcher == null && d.inputMonitors == []
    ensures r.productNameOk && r.inputIteratorOk ==> |ms| == |r.inputs|
    ensures r.productNameOk && r.inputIteratorOk ==> forall k :: 0 <= k < |r.inputs| ==>
              ms[k].input == r.inputs[k] && !ms[k].alive &&
              r.inputs[k].refCount == old(r.inputs[k].refCount) && r.inputs[k].callbacks == old(r.inputs[k].callbacks)
    ensures r.productNameOk && r.inputIteratorOk ==> forall k :: 0 <= k < |r.inputs| ==>
              r.inputs[k].calls == old(r.inputs[k].calls) +
                [AddRefCall, AddRefCall, AddCallbackCall(ms[k]), ReleaseCall] + [RemoveCallbackCall(ms[k]), ReleaseCall]
  {
    var notice := d.OnBnClickedConnect(Connected(s), r);
    ms := d.inputMonitors;
    if r.productNameOk && r.inputIteratorOk {
      DisconnectReleasingEach(d, r.inputs);
    } else {
      d.SwitcherDisconnected();
    }
  }

  /**
   * A disconnect of a panel holding one newly created monitor per input:
   * each monitor is destroyed, and each input sees its monitor's callback
   * removed and then one reference released.
   */
  method DisconnectReleasingEach(d: SwitcherPanelDlg, inputs: seq<SwitcherInput>)
    requires d.Valid() && |d.inputMonitors| == |inputs|
    requires forall k :: 0 <= k < |inputs| ==> d.inputMonitors[k].input == inputs[k] && d.inputMonitors[k].State() == Created
    modifies d`connectEnabled, d`inputMonitors, d`mixEffectBlock, d`switcher, d.switcher, d.mixEffectBlock
    modifies (set m | m in d.inputMonitors), InputsOf(d.inputMonitors)
    ensures d.Valid() && d.connectEnabled && d.switcher == null && d.inputMonitors == []
    ensures forall k :: 0 <= k < |inputs| ==>
              !old(d.inputMonitors[k]).alive && InputDetached(inputs[k], old(d.inputMonitors[k]))
  {
    ghost var ms := d.inputMonitors;
    d.SwitcherDisconnected();
    forall k | 0 <= k < |inputs|
      ensures !ms[k].alive && InputDetached(inputs[k], ms[k])
    {
      assert ReleasedOnce(ms[k]);
    }
  }

  /**
   * The same session, as seen by the switcher and the first mix effect
   * block. The block ends with the references and registrations it started
   * with; the switcher loses exactly the reference ConnectTo handed out, and
   * ends with the registrations it started with. Each callback is removed
   * before the handle it was registered with is released.
   */
  method SessionHandlesBalance(d: SwitcherPanelDlg, s: Switcher, r: ConnectReadings)
    requires d.Valid() && d.connectEnabled && d.switcher == null && DistinctInputs(r.inputs)
    modifies d`connectEnabled, d`switcher, d`inputMonitors, d`mixEffectBlock
    modifies d`currentTransitionReachedHalfway, d`sliderPos
    modifies s, ReadingObjects(r), d.comboProgram, d.comboPreview
    ensures d.Valid() && d.connectEnabled && d.switcher == null && d.mixEffectBlock == null && d.inputMonitors == []
    ensures s.refCount == old(s.refCount) - 1
    ensures r.productNameOk ==> s.callbacks == old(s.callbacks)
    ensures r.productNameOk ==>
              s.calls == old(s.calls) + [AddCallbackCall(d.switcherMonitor)] + [RemoveCallbackCall(d.switcherMonitor)] + [ReleaseCall]
    ensures r.firstBlock.Some? ==>
              r.firstBlock.value.refCount == old(r.firstBlock.value.refCount) &&
              r.firstBlock.value.callbacks == old(r.firstBlock.value.callbacks)
    ensures r.firstBlock.Some? && r.productNameOk ==>
              r.firstBlock.value.calls == old(r.firstBlock.value.calls) +
                [AddRefCall, AddCallbackCall(d.mixEffectBlockMonitor)] + [RemoveCallbackCall(d.mixEffectBlockMonitor)] + [ReleaseCall]
  {
    var notice := d.OnBnClickedConnect(Connected(s), r);
    d.SwitcherDisconnected();
  }

  /**
   * A connection whose product name cannot be read: the Connect button is
   * disabled and the switcher handle kept, but the switcher monitor is never
   * registered, so no disconnection message can ever reach the panel to
   * enable the button again.
   */
  method ConnectWithoutProductName(d: SwitcherPanelDlg, s: Switcher, r: ConnectReadings)
    requires d.Valid() && d.connectEnabled && d.switcher == null && DistinctInputs(r.inputs)
    requires !r.productNameOk
    modifies d`connectEnabled, d`switcher, d`inputMonitors, d`mixEffectBlock
    modifies d`currentTransitionReachedHalfway, d`sliderPos
    modifies s, ReadingObjects(r), d.comboProgram, d.comboPreview
    ensures !d.connectEnabled && d.switcher == s
    ensures d.switcherMonitor !in s.callbacks - old(s.callbacks)
    ensures s.calls == old(s.calls) && d.mixEffectBlock == null && d.inputMonitors == []
  {
    var notice := d.OnBnClickedConnect(Connected(s), r);
  }

  /**
   * A disconnect of a panel that is already disconnected changes nothing:
   * there is no monitor to release and no handle to clear.
   */
  method DisconnectAgain(d: SwitcherPanelDlg)
    requires d.Valid() && d.connectEnabled && d.switcher == null
    modifies d`connectEnabled, d`inputMonitors, d`mixEffectBlock, d`switcher
    ensures d.Valid()
    ensures unchanged(d)
  {
    d.SwitcherDisconnected();
  }
}
