/**
 * The control panel dialog: the state it keeps in sync with the switcher
 * (slider direction, the halfway flag, the slider, the combo boxes), the
 * handles it holds while connected, and the callback objects it registers
 * with the switcher, the first mix effect block and every input.
 *
 * Everything the panel reads from the device reaches these methods as
 * arguments; what the panel writes to the device (SetFloat) is returned.
 */
module SwitcherPanel {
  import opened Wrappers
  import opened Messages
  import opened RefCounting
  import opened Sdk
  import opened Monitors
  import opened Slider
  import opened Selection

  /** What the device reports while the combo boxes are rebuilt. */
  datatype PopupReadings = PopupReadings(
    iteratorOk: bool,          // the input iterator could be created
    inputs: seq<ComboItem>,    // (long name, input id) of each input, in iterator order
    programId: int,            // the live program input id
    previewId: int)            // the live preview input id

  /** What the device reports while the panel sets up a new connection. */
  datatype ConnectReadings = ConnectReadings(
    productNameOk: bool,                 // the product name could be read
    inputIteratorOk: bool,               // the input iterator could be created
    inputs: seq<SwitcherInput>,          // the inputs that iterator yields
    firstBlock: Option<MixEffectBlock>,  // the first mix effect block, if the block iterator yields one
    popup: PopupReadings,
    position: real)                      // the transition position

  /** The device objects a connection touches besides the switcher. */
  function ReadingObjects(r: ConnectReadings): set<object> {
    (set x: object | x in r.inputs) + (if r.firstBlock.Some? then {r.firstBlock.value as object} else {})
  }

  /** An input iterator yields every input once. */
  predicate DistinctInputs(inputs: seq<SwitcherInput>) {
    forall i, j :: 0 <= i < j < |inputs| ==> inputs[i] != inputs[j]
  }

  datatype ConnectFailure = NoResponse | IncompatibleFirmware | OtherFailure(code: int)

  /** The result of ConnectTo: the switcher handle, or why there is none. */
  datatype ConnectOutcome = Connected(switcher: Switcher) | Failed(reason: ConnectFailure)

  /** The error box shown for a failed connection. */
  datatype Notice = NoResponseNotice | IncompatibleFirmwareNotice | UnknownFailureNotice

  /** An input monitor just created for input x: the input holds one more reference and the monitor is registered. */
  twostate predicate CreatedFor(new m: InputMonitor, x: SwitcherInput)
    reads m, x
  {
    && fresh(m)
    && m.input == x
    && m.State() == Created
    && x.refCount == old(x.refCount) + 1
    && x.callbacks == old(x.callbacks) + multiset{m}
    && x.calls == old(x.calls) + [AddRefCall, AddRefCall, AddCallbackCall(m), ReleaseCall]
  }

  /**
   * An input monitor released once, with its destructor run when that was
   * its last reference: the callback is removed before the input is released.
   */
  twostate predicate ReleasedOnce(m: InputMonitor)
    reads m, m.input
  {
    && m.State() == ReleaseStep(old(m.State()))
    && (m.refCount == 0 ==> InputDetached(m.input, m))
    && (m.refCount != 0 ==> unchanged(m.input))
  }

  /** An input whose callback cb was removed, and only then one reference released. */
  twostate predicate InputDetached(x: SwitcherInput, cb: object)
    reads x
  {
    && x.callbacks == old(x.callbacks) - multiset{cb}
    && x.refCount == old(x.refCount) - 1
    && x.calls == old(x.calls) + [RemoveCallbackCall(cb), ReleaseCall]
  }

  /** A mix effect block whose callback cb was removed, and only then one reference released. */
  twostate predicate BlockDetached(b: MixEffectBlock, cb: object)
    reads b
  {
    && b.callbacks == old(b.callbacks) - multiset{cb}
    && b.refCount == old(b.refCount) - 1
    && b.calls == old(b.calls) + [RemoveCallbackCall(cb)] + [ReleaseCall]
  }

  /** A switcher whose callback cb was removed, and only then one reference released. */
  twostate predicate SwitcherDetached(s: Switcher, cb: object)
    reads s
  {
    && s.callbacks == old(s.callbacks) - multiset{cb}
    && s.refCount == old(s.refCount) - 1
    && s.calls == old(s.calls) + [RemoveCallbackCall(cb)] + [ReleaseCall]
  }

  /** The inputs the monitors of a list are registered with. */
  function InputsOf(ms: seq<InputMonitor>): set<SwitcherInput> {
    set m | m in ms :: m.input
  }

  /** The monitors a dialog owns: alive, holding the dialog's reference, one per input. */
  ghost predicate MonitorsValid(ms: seq<InputMonitor>)
    reads set m | m in ms
  {
    && (forall m :: m in ms ==> m.alive && m.refCount >= 1)
    && (forall i, j :: 0 <= i < j < |ms| ==> ms[i].input != ms[j].input)
  }

  lemma MonitorsValidAppend(ms: seq<InputMonitor>, m: InputMonitor)
    requires MonitorsValid(ms)
    requires m.alive && m.refCount >= 1
    requires m.input !in InputsOf(ms)
    ensures MonitorsValid(ms + [m])
  {
  }

  class SwitcherPanelDlg {
    const window: Window
    const switcherMonitor: SwitcherMonitor
    const mixEffectBlockMonitor: MixEffectBlockMonitor
    const comboProgram: ComboBox
    const comboPreview: ComboBox

    var connectEnabled: bool    // the Connect button, enabled exactly while no connection is set up
    var switcher: Switcher?
    var mixEffectBlock: MixEffectBlock?
    var inputMonitors: seq<InputMonitor>
    var moveSliderDownwards: bool
    var currentTransitionReachedHalfway: bool
    var sliderPos: int

    ghost predicate Valid()
      reads this, switcherMonitor, mixEffectBlockMonitor, set m | m in inputMonitors
    {
      && comboProgram != comboPreview
      && switcherMonitor.alive
      && mixEffectBlockMonitor.alive
      && MonitorsValid(inputMonitors)
      && (connectEnabled ==> mixEffectBlock == null && inputMonitors == [])
    }

    function SliderStateOf(): SliderState
      reads this
    {
      SliderState(moveSliderDownwards, currentTransitionReachedHalfway, sliderPos)
    }

    /**
     * The combo boxes after updatePopupButtonItems: untouched when the input
     * iterator fails; otherwise both hold the inputs in iterator order and
     * select the live program and preview ids.
     */
    twostate predicate CombosRebuilt(r: PopupReadings)
      reads this, comboProgram, comboPreview
    {
      && (!r.iteratorOk ==> unchanged(comboProgram, comboPreview))
      && (r.iteratorOk ==> comboProgram.items == r.inputs && comboPreview.items == r.inputs)
      && (r.iteratorOk ==> comboProgram.curSel == SelectionAfter(r.inputs, CB_ERR, r.programId))
      && (r.iteratorOk ==> comboPreview.curSel == SelectionAfter(r.inputs, CB_ERR, r.previewId))
    }

    /** The member set-up of OnInitDialog, which ends by calling switcherDisconnected. */
    constructor ()
      ensures Valid()
      ensures fresh(window) && fresh(switcherMonitor) && fresh(mixEffectBlockMonitor)
      ensures fresh(comboProgram) && fresh(comboPreview)
      ensures connectEnabled && switcher == null && mixEffectBlock == null && inputMonitors == []
      ensures !moveSliderDownwards && !currentTransitionReachedHalfway
      ensures switcherMonitor.State() == Created && mixEffectBlockMonitor.State() == Created
      ensures window.posted == []
      ensures comboProgram.items == [] && comboPreview.items == []
    {
      var w := new Window();
      window := w;
      switcherMonitor := new SwitcherMonitor(w);
      mixEffectBlockMonitor := new MixEffectBlockMonitor(w);
      comboProgram := new ComboBox();
      comboPreview := new ComboBox();
      connectEnabled := false;
      switcher := null;
      mixEffectBlock := null;
      inputMonitors := [];
      moveSliderDownwards := false;
      currentTransitionReachedHalfway := false;
      sliderPos := 0;
      new;
      SwitcherDisconnected();
    }

    /**
     * OnBnClickedConnect, given what ConnectTo returned. The button can only
     * be clicked while it is enabled, that is while nothing is connected. On
     * success the switcher handle is kept and the connection is set up; on
     * failure the error box for the reason is chosen and nothing else happens.
     */
    method OnBnClickedConnect(outcome: ConnectOutcome, r: ConnectReadings) returns (notice: Option<Notice>)
      requires Valid() && connectEnabled && DistinctInputs(r.inputs)
      modifies this`connectEnabled, this`switcher, this`inputMonitors, this`mixEffectBlock
      modifies this`currentTransitionReachedHalfway, this`sliderPos
      modifies if outcome.Connected? then {outcome.switcher} else {}
      modifies ReadingObjects(r), comboProgram, comboPreview
      ensures Valid()
      ensures outcome.Failed? ==> unchanged(this) && notice.Some?
      ensures outcome.Failed? ==> unchanged(comboProgram, comboPreview) && forall x :: x in ReadingObjects(r) ==> unchanged(x)
      ensures outcome.Failed? && outcome.reason == NoResponse ==> notice == Some(NoResponseNotice)
      ensures outcome.Failed? && outcome.reason == IncompatibleFirmware ==> notice == Some(IncompatibleFirmwareNotice)
      ensures outcome.Failed? && outcome.reason.OtherFailure? ==> notice == Some(UnknownFailureNotice)
      ensures outcome.Connected? ==> notice == None && !connectEnabled && switcher == outcome.switcher
      ensures outcome.Connected? ==>
                switcher.refCount == old(outcome.switcher.refCount) &&
                switcher.callbacks == old(outcome.switcher.callbacks) + (if r.productNameOk then multiset{switcherMonitor} else multiset{}) &&
                switcher.calls == old(outcome.switcher.calls) + if r.productNameOk then [AddCallbackCall(switcherMonitor)] else []
      ensures outcome.Connected? ==> ConnectedEffects(r)
    {
      match outcome {
        case Connected(s) =>
          switcher := s;    // ConnectTo hands the handle out with a reference already counted
          SwitcherConnected(r);
          notice := None;
        case Failed(reason) =>
          notice := match reason
            case NoResponse => Some(NoResponseNotice)
            case IncompatibleFirmware => Some(IncompatibleFirmwareNotice)
            case OtherFailure(_) => Some(UnknownFailureNotice);
      }
    }

    /**
     * A slider event: only thumb-track and thumb-position events are
     * handled, and they yield the transition position written to the device.
     */
    method OnVScroll(nSBCode: Uint, nPos: Uint) returns (written: Option<real>)
      requires mixEffectBlock != null    // the slider is only enabled while a mix effect block is attached
      ensures written.Some? <==> nSBCode == SB_THUMBTRACK || nSBCode == SB_THUMBPOSITION
      ensures written.Some? ==> written.value == PositionForSlider(nPos, moveSliderDownwards)
    {
      if nSBCode != SB_THUMBTRACK && nSBCode != SB_THUMBPOSITION {
        return None;
      }
      var position := nPos as real / 100.0;
      if moveSliderDownwards {
        position := ((100 - nPos) % UINT_MODULUS) as real / 100.0;
      }
      written := Some(position);
    }

    /** updateSliderPosition, given the transition position read from the device. */
    method UpdateSliderPosition(position: real)
      modifies this`currentTransitionReachedHalfway, this`sliderPos
      ensures SliderStateOf() == AfterPositionRead(old(SliderStateOf()), position)
    {
      currentTransitionReachedHalfway := position >= 0.5;
      var sliderPosition := position * 100.0;
      if moveSliderDownwards {
        sliderPosition := 100.0 - position * 100.0;
      }
      sliderPos := TruncateToInt(sliderPosition + 0.5);
    }

    /**
     * OnMixEffectBlockInTransitionChanged, given the in-transition flag and
     * the transition position read from the device.
     */
    method OnMixEffectBlockInTransitionChanged(inTransition: bool, position: real)
      modifies this`moveSliderDownwards, this`currentTransitionReachedHalfway, this`sliderPos
      ensures SliderStateOf() == AfterInTransitionRead(old(SliderStateOf()), inTransition, position)
    {
      if !inTransition {
        if currentTransitionReachedHalfway {
          moveSliderDownwards := !moveSliderDownwards;
          UpdateSliderPosition(position);
        }
        currentTransitionReachedHalfway := false;
      }
    }

    /** The search loop shared by the program and preview selection updates. */
    static method SelectLiveInput(combo: ComboBox, liveId: int)
      modifies combo
      ensures combo.items == old(combo.items)
      ensures combo.curSel == SelectionAfter(old(combo.items), old(combo.curSel), liveId)
    {
      var i := 0;
      while i < |combo.items|
        invariant 0 <= i <= |combo.items|
        invariant combo.items == old(combo.items) && combo.curSel == old(combo.curSel)
        invariant forall j :: 0 <= j < i ==> combo.items[j].id != liveId
      {
        if combo.items[i].id == liveId {
          combo.SetCurSel(i);
          return;
        }
        i := i + 1;
      }
    }

    /** updateProgramButtonSelection, given the live program input id. */
    method UpdateProgramButtonSelection(programId: int)
      modifies comboProgram
      ensures comboProgram.items == old(comboProgram.items)
      ensures comboProgram.curSel == SelectionAfter(old(comboProgram.items), old(comboProgram.curSel), programId)
    {
      SelectLiveInput(comboProgram, programId);
    }

    /** updatePreviewButtonSelection, given the live preview input id. */
    method UpdatePreviewButtonSelection(previewId: int)
      modifies comboPreview
      ensures comboPreview.items == old(comboPreview.items)
      ensures comboPreview.curSel == SelectionAfter(old(comboPreview.items), old(comboPreview.curSel), previewId)
    {
      SelectLiveInput(comboPreview, previewId);
    }

    /**
     * updatePopupButtonItems: both combo boxes get one entry per input, in
     * iterator order, and then their selections are matched to the live ids.
     */
    method UpdatePopupButtonItems(r: PopupReadings)
      requires comboProgram != comboPreview
      modifies comboProgram, comboPreview
      ensures CombosRebuilt(r)
    {
      if !r.iteratorOk {
        return;
      }
      comboProgram.ResetContent();
      comboPreview.ResetContent();
      var i := 0;
      while i < |r.inputs|
        invariant 0 <= i <= |r.inputs|
        invariant comboProgram.items == r.inputs[..i] && comboPreview.items == r.inputs[..i]
        invariant comboProgram.curSel == CB_ERR && comboPreview.curSel == CB_ERR
      {
        var input := r.inputs[i];
        var newIndex := comboProgram.AddString(input.name);
        comboProgram.SetItemData(newIndex, input.id);
        newIndex := comboPreview.AddString(input.name);
        comboPreview.SetItemData(newIndex, input.id);
        assert r.inputs[..i + 1] == r.inputs[..i] + [input];
        i := i + 1;
      }
      assert r.inputs[..i] == r.inputs;
      UpdateProgramButtonSelection(r.programId);
      UpdatePreviewButtonSelection(r.previewId);
    }

    /** The input-monitor loop of switcherConnected: one monitor per input, appended in iterator order. */
    method CreateInputMonitors(inputs: seq<SwitcherInput>)
      requires Valid() && !connectEnabled && inputMonitors == [] && DistinctInputs(inputs)
      modifies this`inputMonitors, set x | x in inputs
      ensures Valid()
      ensures |inputMonitors| == |inputs|
      ensures forall k :: 0 <= k < |inputs| ==> CreatedFor(inputMonitors[k], inputs[k])
    {
      var i := 0;
      while i < |inputs|
        invariant 0 <= i <= |inputs| && |inputMonitors| == i
        invariant forall k :: 0 <= k < i ==> CreatedFor(inputMonitors[k], inputs[k])
        invariant forall k :: i <= k < |inputs| ==> unchanged(inputs[k])
        invariant forall k :: i <= k < |inputs| ==> inputs[k] !in InputsOf(inputMonitors)
        invariant Valid()
      {
        AddInputMonitor(inputs[i]);
        i := i + 1;
      }
    }

    /** One step of that loop: an input monitor for one input, holding the only reference the dialog keeps. */
    method AddInputMonitor(input: SwitcherInput)
      requires Valid() && !connectEnabled && input !in InputsOf(inputMonitors)
      modifies this`inputMonitors, input
      ensures Valid()
      ensures |inputMonitors| == |old(inputMonitors)| + 1
      ensures forall k :: 0 <= k < |old(inputMonitors)| ==> inputMonitors[k] == old(inputMonitors[k])
      ensures CreatedFor(inputMonitors[|old(inputMonitors)|], input)
    {
      input.AddRef();    // the reference the iterator hands out
      var monitor := new InputMonitor(input, window);
      input.Release();
      MonitorsValidAppend(inputMonitors, monitor);
      inputMonitors := inputMonitors + [monitor];
    }

    /** The end of switcherConnected: keep the first mix effect block, register with it and read it into the widgets. */
    method AttachMixEffectBlock(block: MixEffectBlock, popup: PopupReadings, position: real)
      requires Valid() && !connectEnabled
      modifies this`mixEffectBlock, this`currentTransitionReachedHalfway, this`sliderPos
      modifies block, comboProgram, comboPreview
      ensures Valid()
      ensures mixEffectBlock == block
      ensures block.refCount == old(block.refCount) + 1
      ensures block.callbacks == old(block.callbacks) + multiset{mixEffectBlockMonitor}
      ensures block.calls == old(block.calls) + [AddRefCall, AddCallbackCall(mixEffectBlockMonitor)]
      ensures CombosRebuilt(popup)
      ensures SliderStateOf() == AfterPositionRead(old(SliderStateOf()), position)
    {
      block.AddRef();    // the reference the iterator hands out
      mixEffectBlock := block;
      block.AddCallback(mixEffectBlockMonitor);
      UpdatePopupButtonItems(popup);
      UpdateSliderPosition(position);
    }

    /** What switcherConnected does to the monitors, the inputs, the mix effect block and the widgets. */
    twostate predicate ConnectedEffects(r: ConnectReadings)
      reads this, set x | x in r.inputs, set m | m in inputMonitors
      reads if r.firstBlock.Some? then {r.firstBlock.value} else {}, comboProgram, comboPreview
    {
      var monitored := r.productNameOk && r.inputIteratorOk;
      var attached := r.productNameOk && r.firstBlock.Some?;
      && (monitored ==> |inputMonitors| == |r.inputs|)
      && (monitored ==> forall k :: 0 <= k < |r.inputs| ==> CreatedFor(inputMonitors[k], r.inputs[k]))
      && (!monitored ==> inputMonitors == [] && forall x :: x in r.inputs ==> unchanged(x))
      && (attached ==>
            && mixEffectBlock == r.firstBlock.value
            && mixEffectBlock.refCount == old(r.firstBlock.value.refCount) + 1
            && mixEffectBlock.callbacks == old(r.firstBlock.value.callbacks) + multiset{mixEffectBlockMonitor}
            && mixEffectBlock.calls == old(r.firstBlock.value.calls) + [AddRefCall, AddCallbackCall(mixEffectBlockMonitor)]
            && CombosRebuilt(r.popup)
            && SliderStateOf() == AfterPositionRead(old(SliderStateOf()), r.position))
      && (!attached ==>
            && mixEffectBlock == null
            && (r.firstBlock.Some? ==> unchanged(r.firstBlock.value))
            && unchanged(comboProgram, comboPreview)
            && SliderStateOf() == old(SliderStateOf()))
    }

    /**
     * switcherConnected, once ConnectTo has set the switcher handle. The
     * Connect button is disabled first. Without a product name nothing is
     * registered; otherwise the switcher monitor is registered, an input
     * monitor is created per input, and the first mix effect block (when
     * there is one) is kept, registered with and read into the combo boxes
     * and the slider.
     */
    method SwitcherConnected(r: ConnectReadings)
      requires Valid() && connectEnabled && switcher != null && DistinctInputs(r.inputs)
      modifies this`connectEnabled, this`inputMonitors, this`mixEffectBlock
      modifies this`currentTransitionReachedHalfway, this`sliderPos
      modifies switcher, ReadingObjects(r), comboProgram, comboPreview
      ensures Valid() && !connectEnabled
      ensures switcher.refCount == old(switcher.refCount)
      ensures switcher.callbacks == old(switcher.callbacks) + if r.productNameOk then multiset{switcherMonitor} else multiset{}
      ensures switcher.calls == old(switcher.calls) + if r.productNameOk then [AddCallbackCall(switcherMonitor)] else []
      ensures ConnectedEffects(r)
    {
      connectEnabled := false;
      if !r.productNameOk {
        return;
      }
      switcher.AddCallback(switcherMonitor);
      if r.inputIteratorOk {
        CreateInputMonitors(r.inputs);
      }
      if r.firstBlock.Some? {
        AttachMixEffectBlock(r.firstBlock.value, r.popup, r.position);
      }
    }

    /** The releasing loop of switcherDisconnected: each monitor of the list is released once. */
    static method ReleaseInputMonitors(ms: seq<InputMonitor>)
      requires MonitorsValid(ms)
      modifies (set m | m in ms), InputsOf(ms)
      ensures forall k :: 0 <= k < |ms| ==> ReleasedOnce(ms[k])
    {
      var i := 0;
      while i < |ms|
        invariant 0 <= i <= |ms|
        invariant forall k :: 0 <= k < i ==> ReleasedOnce(ms[k])
        invariant forall k :: i <= k < |ms| ==> unchanged(ms[k], ms[k].input)
      {
        var count := ms[i].Release();
        i := i + 1;
      }
    }

    /** The end of switcherDisconnected: each handle's callback is removed before the handle is released and cleared. */
    method DetachHandles()
      modifies this`mixEffectBlock, this`switcher, switcher, mixEffectBlock
      ensures mixEffectBlock == null && switcher == null
      ensures old(mixEffectBlock) != null ==> BlockDetached(old(mixEffectBlock), mixEffectBlockMonitor)
      ensures old(switcher) != null ==> SwitcherDetached(old(switcher), switcherMonitor)
    {
      if mixEffectBlock != null {
        mixEffectBlock.RemoveCallback(mixEffectBlockMonitor);
        mixEffectBlock.Release();
        mixEffectBlock := null;
      }

      if switcher != null {
        switcher.RemoveCallback(switcherMonitor);
        switcher.Release();
        switcher := null;
      }
    }

    /**
     * switcherDisconnected: the Connect button is enabled again, every input monitor is released once and the
     * list emptied, and the callbacks on the mix effect block and the
     * switcher are removed before those handles are released and cleared.
     */
    method SwitcherDisconnected()
      requires Valid()
      modifies this`connectEnabled, this`inputMonitors, this`mixEffectBlock, this`switcher, switcher, mixEffectBlock
      modifies (set m | m in inputMonitors), InputsOf(inputMonitors)
      ensures Valid()
      ensures connectEnabled && inputMonitors == [] && mixEffectBlock == null && switcher == null
      ensures forall k :: 0 <= k < |old(inputMonitors)| ==> ReleasedOnce(old(inputMonitors[k]))
      ensures old(mixEffectBlock) != null ==> BlockDetached(old(mixEffectBlock), mixEffectBlockMonitor)
      ensures old(switcher) != null ==> SwitcherDetached(old(switcher), switcherMonitor)
    {
      connectEnabled := true;
      ghost var ms := inputMonitors;
      ReleaseInputMonitors(inputMonitors);
      inputMonitors := [];
      label Released:
      DetachHandles();
      forall k | 0 <= k < |ms|
        ensures ReleasedOnce(ms[k])
      {
        assert unchanged@Released(ms[k], ms[k].input);
      }
    }
  }
}
