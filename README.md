# Switcher panel: a Dafny model of the dialog core

This project models the core of `SwitcherPanelDlg.cpp`, the control panel of an
ATEM switcher written with MFC over the vendor's COM SDK, and proves
properties of that model. The panel keeps a dialog in step with the switcher:

- **Callbacks.** Three objects receive events from the SDK on the SDK's own
  threads:
  - the mix effect block monitor;
  - one input monitor per switcher input;
  - the switcher monitor.

  Each keeps a COM reference count. Each turns the events the panel cares
  about into window messages (`WM_USER+1` … `WM_USER+8`) and ignores every
  other event.
- **The dialog.** It holds these handles:
  - the switcher;
  - the first mix effect block;
  - the list of input monitors.

  It also holds the state of the transition slider: the direction flag, the
  "reached halfway" flag and the slider position. On connect it registers
  its callbacks and fills the program and preview combo boxes. On disconnect
  it unregisters everything and releases every handle.

Every value the panel reads from the device becomes a method argument:

- `GetInt`, `GetFloat` and `GetFlag`;
- the input iterator and the mix effect block iterator;
- the product name;
- the result of `ConnectTo`.

The value the panel writes, the transition position that `OnVScroll` sends
to `SetFloat`, is returned. The transition position is a `real`, not an IEEE
double.

The SDK objects the panel holds are modelled by module `Sdk` as three small
ledger classes: `Switcher`, `MixEffectBlock` and `SwitcherInput`. Each records
only its reference count and the multiset of callbacks registered with it.
Each also records the sequence of those calls, in the order they were made.
This makes two things statements about fields that the proofs can check:

- every registration is undone and every reference given back;
- each callback is removed before the reference it was registered under is
  released.

Layout:

- `wrappers.dfy`: `Option`.
- `messages.dfy`: the eight window messages and their numbers, and the three
  event dispatchers as total functions.
- `ref_counting.dfy`: `QueryInterface`, `AddRef` and `Release` as a state
  machine on (count, alive); traces of calls and their lemmas.
- `sdk.dfy`: the SDK ledger classes.
- `monitors.dfy`: the window's message queue and the three callback classes.
  Their methods are proved against the functions in `messages.dfy` and
  `ref_counting.dfy`.
- `slider.dfy`: the two slider mappings, truncation, and the halfway/flip
  state machine as functions on `SliderState`, with lemmas over runs of
  events.
- `selection.dfy`: the combo box items, the first-match search, and a
  `ComboBox` class with the MFC calls the panel uses.
- `dialog.dfy`: the `SwitcherPanelDlg` class. Its methods are
  `OnBnClickedConnect`, `OnVScroll`, the slider and selection updates, and
  `switcherConnected` / `switcherDisconnected` with their loops.
- `lifecycle.dfy`: whole-session properties. A click on Connect followed
  by the switcher's disconnection leaves every input, the first mix effect
  block and the switcher's registrations as they were, and takes back the
  reference `ConnectTo` handed out. The input monitors a connect creates
  are all destroyed by the disconnect, each unregistered before its input
  is released. A second disconnect changes
  nothing.

The Connect button's enabled state is a field of the dialog
(`connectEnabled`):

- `switcherConnected` clears it first (line 441). It does so even when the
  product name cannot be read and nothing is registered.
- `switcherDisconnected` sets it (line 502).

Because the button can only be clicked while it is enabled, a connection
always starts from the state a disconnect leaves:

- no mix effect block;
- no input monitors.

The dialog's invariant `Valid` states this. It also states two more things:

- the monitors it owns are alive and hold a reference;
- each input is watched by at most one monitor.

## Model

| member | source | states |
|---|---|---|
| Messages.Code | SwitcherPanelDlg.cpp:38-45 | every message kind is numbered within `WM_USER+1` … `WM_USER+8` |
| Messages.CodesDistinct | SwitcherPanelDlg.cpp:38-45 | two message kinds have the same number if and only if they are the same kind |
| Messages.MixEffectBlockMessage | SwitcherPanelDlg.cpp:93-119 | a message is posted for a property id exactly when it is one of the six recognised ids, and it is always a mix-effect-block message |
| Messages.ReportedProperty | SwitcherPanelDlg.cpp:93-119 | exactly the six mix-effect-block messages report a property, and never an unrecognised one |
| Messages.MixEffectBlockMessageInverse | SwitcherPanelDlg.cpp:93-119 | property p is posted as message m if and only if m reports p back: the dispatch is invertible |
| Messages.MixEffectBlockMessagesDistinct | SwitcherPanelDlg.cpp:93-119 | each recognised property id goes to its own message kind; no two ids share one |
| Messages.InputEventMessage | SwitcherPanelDlg.cpp:182-193 | an input event posts a message if and only if it is a long-name change, and that message is `InputLongNameChanged` |
| Messages.SwitcherEventMessage | SwitcherPanelDlg.cpp:250-258 | a switcher event posts a message if and only if it is a disconnection, and that message is `SwitcherDisconnected` |
| Messages.DispatchersDisjoint | SwitcherPanelDlg.cpp:93-258 | the three callbacks never post the same message kind |
| RefCounting.Query | SwitcherPanelDlg.cpp:57-78 | a null out-pointer gives `E_POINTER` and changes nothing; a supported IID (own interface or `IUnknown`) fills the out-pointer with that interface, adds a reference and gives `S_OK`; any other IID nulls the out-pointer, keeps the count and gives `E_NOINTERFACE` |
| RefCounting.QueryIUnknownSucceeds | SwitcherPanelDlg.cpp:68-74 | asking any callback for `IUnknown` through a real out-pointer succeeds |
| RefCounting.ApplyCount | SwitcherPanelDlg.cpp:80-91 | after any run of `AddRef`/`Release` calls on a live object, the count is the start count plus AddRefs minus Releases, and the object is alive exactly while that count is positive |
| RefCounting.ApplyLiveIff | SwitcherPanelDlg.cpp:85-91 | every call in a run reaches a live object if and only if the running count is positive before each call: deletion happens exactly when the count reaches zero |
| RefCounting.NewObjectLifetime | SwitcherPanelDlg.cpp:51-91 | a new object (count 1) that is released once more than it is AddRef'd, without reaching zero early, ends deleted |
| Monitors.MixEffectBlockMonitor.constructor | SwitcherPanelDlg.cpp:51 | a new monitor is alive with count 1 |
| Monitors.MixEffectBlockMonitor.QueryInterface | SwitcherPanelDlg.cpp:57-78 | result, out-pointer and new count are exactly those of `Query` for the mix-effect-block callback interface |
| Monitors.MixEffectBlockMonitor.AddRef | SwitcherPanelDlg.cpp:80-83 | the count goes up by one and the new count is returned |
| Monitors.MixEffectBlockMonitor.Release | SwitcherPanelDlg.cpp:85-91 | the count goes down by one, the new count is returned, and the object is deleted exactly when that count is 0 |
| Monitors.MixEffectBlockMonitor.PropertyChanged | SwitcherPanelDlg.cpp:93-119 | the window queue grows by exactly the message `MixEffectBlockMessage` gives, or by nothing, and the result is `S_OK` |
| Monitors.InputMonitor.constructor | SwitcherPanelDlg.cpp:131-135 | a new monitor has count 1 and holds one more reference on its input, and it is registered once more with that input; the input sees `AddRef` and then `AddCallback` |
| Monitors.InputMonitor.QueryInterface | SwitcherPanelDlg.cpp:146-167 | as `Query` for the input callback interface |
| Monitors.InputMonitor.AddRef | SwitcherPanelDlg.cpp:169-172 | the count goes up by one and the new count is returned |
| Monitors.InputMonitor.Release | SwitcherPanelDlg.cpp:138-180 | the count goes down by one; exactly when it reaches 0 the monitor is deleted, its registration with its input is removed and only then its reference on the input released (the input sees `RemoveCallback` followed by `Release`), and otherwise the input is untouched |
| Monitors.InputMonitor.Notify | SwitcherPanelDlg.cpp:182-193 | the queue grows by the message `InputEventMessage` gives, or by nothing, and the result is `S_OK` |
| Monitors.SwitcherMonitor.constructor | SwitcherPanelDlg.cpp:206 | a new monitor is alive with count 1 |
| Monitors.SwitcherMonitor.QueryInterface | SwitcherPanelDlg.cpp:213-234 | as `Query` for the switcher callback interface |
| Monitors.SwitcherMonitor.AddRef | SwitcherPanelDlg.cpp:236-239 | the count goes up by one and the new count is returned |
| Monitors.SwitcherMonitor.Release | SwitcherPanelDlg.cpp:241-247 | the count goes down by one and the object is deleted exactly when it reaches 0 |
| Monitors.SwitcherMonitor.Notify | SwitcherPanelDlg.cpp:250-258 | the queue grows by the message `SwitcherEventMessage` gives, or by nothing, and the result is `S_OK`; the video mode is ignored |
| Monitors.InputMonitorLifetime | SwitcherPanelDlg.cpp:131-180 | for every run of `AddRef`/`Release` calls on a new input monitor that keeps it alive until its last step and ends at count 0, the monitor is deleted and the input ends with the reference count and registrations it started with, having seen exactly `AddRef`, `AddCallback`, `RemoveCallback`, `Release` in that order |
| Slider.TruncateToInt | SwitcherPanelDlg.cpp:615 | the `(int)` conversion truncates toward zero: the result is the whole number between the value and zero that is nearest the value |
| Slider.SliderValue | SwitcherPanelDlg.cpp:609-615 | the slider shows the target (100·p, or 100 − 100·p when flipped) rounded half-up, and for p in [0, 1] a value in [0, 100] |
| Slider.PositionForSlider | SwitcherPanelDlg.cpp:422-433 | for a slider value in [0, 100] the position written is in [0, 1], and reading it back shows the same slider value (the two mappings are inverse on per cents) |
| Slider.PositionRoundTrip | SwitcherPanelDlg.cpp:603-617 | writing back the slider value shown for a position moves the device by at most half a per cent |
| Slider.HandleStaysOnFlip | SwitcherPanelDlg.cpp:609-613 | flipping the direction and replacing p by 1 − p shows the same slider value, so the handle stays put when a transition ends |
| Slider.AfterInTransitionRead | SwitcherPanelDlg.cpp:649-667 | the direction flips if and only if the transition has ended with the halfway flag set; an ended transition always leaves the flag clear; while in transition nothing changes |
| Slider.PositionReadsKeepLast | SwitcherPanelDlg.cpp:603-617 | after a run of position reads, the halfway flag is (last position ≥ 0.5), the slider shows the last position, and the direction is unchanged |
| Slider.CoalescedPositionReads | SwitcherPanelDlg.cpp:669-673 | a burst of identical position messages leaves the state a single one leaves |
| Slider.TransitionFlipsIff | SwitcherPanelDlg.cpp:649-667 | over a whole transition, the direction flips exactly when the last position read was at least halfway, and the halfway flag ends clear |
| Slider.EndOfTransitionIdempotent | SwitcherPanelDlg.cpp:649-667 | a second end-of-transition message changes nothing |
| Selection.FirstIndexWithId | SwitcherPanelDlg.cpp:577-585 | the search finds an index if and only if some item has the id, and then it is the first such index |
| Selection.SelectionMatchesLiveId | SwitcherPanelDlg.cpp:573-586 | after the update the selected item carries the live id when any item does; otherwise the selection is what it was |
| Selection.SelectionIdempotent | SwitcherPanelDlg.cpp:573-586 | running the selection update twice with the same id selects what running it once selects |
| SwitcherPanel.SwitcherPanelDlg.constructor | SwitcherPanelDlg.cpp:333-351 | the dialog starts valid and disconnected: both monitors are new with count 1, there are no handles or input monitors, both flags are clear and the Connect button is enabled |
| SwitcherPanel.SwitcherPanelDlg.OnBnClickedConnect | SwitcherPanelDlg.cpp:359-392 | on failure, exactly one error notice for the reason, and the dialog, the combo boxes and every device object are unchanged; on success the switcher handle is kept, no notice, and the effects of `SwitcherConnected` |
| SwitcherPanel.SwitcherPanelDlg.OnVScroll | SwitcherPanelDlg.cpp:422-433 | a position is written if and only if the scroll code is THUMBTRACK or THUMBPOSITION, and it is `PositionForSlider` of the slider value and direction |
| SwitcherPanel.SwitcherPanelDlg.UpdateSliderPosition | SwitcherPanelDlg.cpp:603-617 | the flags and slider become `AfterPositionRead` of the old ones: halfway is exactly (position ≥ 0.5) and the slider shows `SliderValue` |
| SwitcherPanel.SwitcherPanelDlg.OnMixEffectBlockInTransitionChanged | SwitcherPanelDlg.cpp:649-667 | the flags and slider become `AfterInTransitionRead` of the old ones |
| SwitcherPanel.SwitcherPanelDlg.SelectLiveInput | SwitcherPanelDlg.cpp:577-585 | the items are unchanged and the selection becomes the first index whose id is the live id, or stays as it was when none matches |
| SwitcherPanel.SwitcherPanelDlg.UpdateProgramButtonSelection | SwitcherPanelDlg.cpp:573-586 | the program combo's selection follows the live program id as `SelectionAfter` says |
| SwitcherPanel.SwitcherPanelDlg.UpdatePreviewButtonSelection | SwitcherPanelDlg.cpp:588-601 | the preview combo's selection follows the live preview id as `SelectionAfter` says |
| SwitcherPanel.SwitcherPanelDlg.UpdatePopupButtonItems | SwitcherPanelDlg.cpp:532-571 | when the input iterator fails both combos are untouched; otherwise both hold the same (name, id) items in iterator order, each with the live id selected |
| SwitcherPanel.SwitcherPanelDlg.CreateInputMonitors | SwitcherPanelDlg.cpp:455-470 | exactly one new input monitor per enumerated input, in iterator order; each has count 1 and is registered once with its input, which holds exactly one more reference |
| SwitcherPanel.SwitcherPanelDlg.AddInputMonitor | SwitcherPanelDlg.cpp:462-467 | one new monitor is appended for the input, and the iterator's reference on the input is given back after the monitor takes its own |
| SwitcherPanel.SwitcherPanelDlg.AttachMixEffectBlock | SwitcherPanelDlg.cpp:480-491 | the first block is kept with one more reference, the block monitor is registered with it once (the block sees `AddRef` then `AddCallback`), the combos are rebuilt and the slider reads the position |
| SwitcherPanel.SwitcherPanelDlg.SwitcherConnected | SwitcherPanelDlg.cpp:435-498 | the Connect button is disabled. Without a product name nothing else happens. Otherwise the switcher monitor is registered once (the switcher sees exactly one `AddCallback`), input monitors are created as in `CreateInputMonitors`, and the first block (if any) is attached. The switcher's reference count is unchanged and the dialog stays valid |
| SwitcherPanel.SwitcherPanelDlg.ReleaseInputMonitors | SwitcherPanelDlg.cpp:508-511 | each listed monitor is released exactly once; the ones whose count reaches 0 unregister from their input and only then give back its reference |
| SwitcherPanel.SwitcherPanelDlg.DetachHandles | SwitcherPanelDlg.cpp:514-526 | for each handle present, its callback is removed and then one reference released (the object sees exactly `RemoveCallback` followed by `Release`), and both handles end null |
| SwitcherPanel.SwitcherPanelDlg.SwitcherDisconnected | SwitcherPanelDlg.cpp:500-527 | the Connect button is enabled; every listed monitor is released once and the list emptied; the block and switcher each see `RemoveCallback` of their monitor followed by one `Release`, and are nulled; the dialog stays valid |
| Lifecycle.InputMonitorsBalance | SwitcherPanelDlg.cpp:455-511 | the input loop of a connect followed by the release loop of a disconnect destroys every monitor it made and leaves every input with the references and registrations it started with; each input saw its monitor registered, and later unregistered before its reference was released |
| Lifecycle.SessionInputsBalance | SwitcherPanelDlg.cpp:359-527 | after a click on Connect and the switcher's later disconnection the dialog is disconnected again with no monitors; when the connect enumerated the inputs, one monitor was made per input and each is deleted, every input is back to the references and registrations it started with, and each input saw its monitor's `AddRef` and registration, the iterator's `Release`, then the unregistration before the monitor's `Release` |
| Lifecycle.DisconnectReleasingEach | SwitcherPanelDlg.cpp:500-511 | a disconnect of a dialog holding one new monitor per input deletes each monitor, and each input sees that monitor's callback removed and then one reference released, and nothing else |
| Lifecycle.SessionHandlesBalance | SwitcherPanelDlg.cpp:359-527 | over the same session the first mix effect block is back to its references and registrations, the switcher to its registrations and one reference lower (the one `ConnectTo` handed out), and each saw its callback added, then removed, then the handle released |
| Lifecycle.ConnectWithoutProductName | SwitcherPanelDlg.cpp:441-448 | a connect whose product name cannot be read leaves the Connect button disabled and the switcher held, with no switcher monitor registered and no call made on the switcher, so no disconnection can re-enable the button |
| Lifecycle.DisconnectAgain | SwitcherPanelDlg.cpp:500-527 | `switcherDisconnected` on an already disconnected dialog changes nothing |

## Left out

- The vendor SDK is not part of this model. Its results are arguments, and its objects are the ledger classes in `sdk.dfy`. This covers `ConnectTo`, `CreateIterator`, `GetInt`/`GetFloat`/`GetFlag`, `SetInt`/`SetFloat`, `GetProductName` and `GetLongName`.
- The SDK's `AddCallback` is assumed not to take a reference on the callback. If it did, the panel's single `Release` of an input monitor would never delete it.
- `PostMessage` and the message queue are a sequence the monitors append to. Cross-thread hand-off and the atomicity of `InterlockedIncrement`/`InterlockedDecrement` are not modelled.
- Monitors.MixEffectBlockMonitor.AddRef: the `LONG` reference count is an unbounded integer; 32-bit overflow of the count is not modelled. The same holds for the other monitors' `AddRef`.
- Monitors.InputMonitor.Release: the `ULONG` return of the signed new count is a plain integer. A count driven below zero by excess `Release` calls is excluded by the `alive` precondition, since such a call would be a use after deletion.
- The references of the iterator objects are not modelled. This covers the input iterator, the mix effect block iterator, and the per-input `Release` in `updatePopupButtonItems`.
- `mEditName`, `mixEffectBlockBoxSetEnabled`, `updateTransitionFramesText`, `updateFTBFramesText` and the `MessageBox` texts are not modelled; they are pure UI. Only the choice of error notice in `OnBnClickedConnect` is kept.
- The combo boxes are assumed unsorted, so `AddString` appends. The dialog resource that would say otherwise is not part of this model.
- `SetItemData` stores the input id as `DWORD_PTR` and `GetItemData` compares it with a 64-bit id. Ids are unbounded integers here, so a truncation of ids on 32-bit builds is not modelled.
- SwitcherPanel.SwitcherPanelDlg.OnVScroll: `(100 - nPos)` is computed as a 32-bit unsigned value, as the source does. Slider positions outside 0..100 are therefore not excluded. The double-precision division is exact real division here.
- Slider.TruncateToInt: the conversion of a double outside the `int` range (undefined behaviour in C++) is not modelled; the real value is truncated without bound.
- The message map and the handlers that only call one modelled member are not modelled separately. These are the handlers for program input changed, preview input changed, transition position, long name and switcher disconnected (lines 637-697); each reduces to `UpdateProgramButtonSelection`, `UpdatePreviewButtonSelection`, `UpdateSliderPosition`, `UpdatePopupButtonItems` or `SwitcherDisconnected`.
- The handlers that read the mix effect block or the switcher (lines 538, 576, 591, 606, 652) dereference `mMixEffectBlock` or `mSwitcher` without a check; a message handled after `switcherDisconnected` has cleared them would dereference NULL. In the model those handlers take the block's values as arguments and do not touch the handle; only `OnVScroll`, which writes to the block, requires it to be attached.
- Lifecycle.SessionHandlesBalance: when the product name cannot be read, no disconnection message can arrive (see `Lifecycle.ConnectWithoutProductName`); the disconnect this member runs in that case is one the source never reaches, and the switcher stays connected with its button disabled.
- `OnBnClickedAuto`, `OnBnClickedCut`, `OnBnClickedFTB`, `DoDataExchange`, `CoInitialize`/`CoCreateInstance` in `OnInitDialog`, and the BSTR/CString conversions are not modelled. They are SDK calls or platform plumbing.
- Lifecycle.SessionInputsBalance: the balance of a whole session is stated separately for the inputs and for the switcher and block (`Lifecycle.SessionHandlesBalance`), because one proof carrying both runs out of the solver's budget. Both state the call order each object sees over the session; `Lifecycle.InputMonitorsBalance` states the same for the two input loops composed directly.
- SwitcherPanel.SwitcherPanelDlg.OnBnClickedConnect, SwitcherPanel.SwitcherPanelDlg.SwitcherConnected, SwitcherPanel.SwitcherPanelDlg.CreateInputMonitors, Lifecycle.InputMonitorsBalance, Lifecycle.SessionInputsBalance, Lifecycle.SessionHandlesBalance: these require `DistinctInputs`, that the SDK's input iterator yields each input at most once. The source (lines 462-467) accepts whatever the iterator yields; an input yielded twice would get two monitors, and that case is not modelled.
