/**
 * The user-defined window messages the callback objects post to the dialog,
 * and the three callback dispatchers that turn an SDK event id into at most
 * one such message.
 */
module Messages {
  import opened Wrappers

  const WM_USER: int := 0x0400

  /** One message kind per change the dialog reacts to. */
  datatype Msg =
    | ProgramInputChanged
    | PreviewInputChanged
    | InTransitionChanged
    | TransitionPositionChanged
    | TransitionFramesRemainingChanged
    | FadeToBlackFramesRemainingChanged
    | InputLongNameChanged
    | SwitcherDisconnected

  /** The window message number of each kind. */
  function Code(m: Msg): (c: int)
    ensures WM_USER + 1 <= c <= WM_USER + 8
  {
    match m
    case ProgramInputChanged => WM_USER + 1
    case PreviewInputChanged => WM_USER + 2
    case InTransitionChanged => WM_USER + 3
    case TransitionPositionChanged => WM_USER + 4
    case TransitionFramesRemainingChanged => WM_USER + 5
    case FadeToBlackFramesRemainingChanged => WM_USER + 6
    case InputLongNameChanged => WM_USER + 7
    case SwitcherDisconnected => WM_USER + 8
  }

  /** No two message kinds share a window message number. */
  lemma CodesDistinct(m: Msg, n: Msg)
    ensures Code(m) == Code(n) <==> m == n
  {
  }

  /** The messages that report a property of the mix effect block. */
  predicate IsMixEffectBlockMsg(m: Msg) {
    !(m.InputLongNameChanged? || m.SwitcherDisconnected?)
  }

  /** Mix effect block property ids; every id other than the six the panel uses is OtherProperty. */
  datatype MixEffectBlockPropertyId =
    | ProgramInput
    | PreviewInput
    | InTransition
    | TransitionPosition
    | TransitionFramesRemaining
    | FadeToBlackFramesRemaining
    | OtherProperty(id: int)

  /** Switcher input event types; every type other than a long-name change is OtherInputEvent. */
  datatype InputEventType = LongNameChanged | OtherInputEvent(id: int)

  /** Switcher event types; every type other than a disconnection is OtherSwitcherEvent. */
  datatype SwitcherEventType = Disconnected | OtherSwitcherEvent(id: int)

  /** The message MixEffectBlockMonitor::PropertyChanged posts for a property id. */
  function MixEffectBlockMessage(p: MixEffectBlockPropertyId): (r: Option<Msg>)
    ensures r.Some? <==> !p.OtherProperty?
    ensures r.Some? ==> IsMixEffectBlockMsg(r.value)
  {
    match p
    case ProgramInput => Some(ProgramInputChanged)
    case PreviewInput => Some(PreviewInputChanged)
    case InTransition => Some(InTransitionChanged)
    case TransitionPosition => Some(TransitionPositionChanged)
    case TransitionFramesRemaining => Some(TransitionFramesRemainingChanged)
    case FadeToBlackFramesRemaining => Some(FadeToBlackFramesRemainingChanged)
    case OtherProperty(_) => None
  }

  /**
   * The property a mix effect block message reports, which is the property
   * its handler reads back from the device.
   */
  function ReportedProperty(m: Msg): (p: Option<MixEffectBlockPropertyId>)
    ensures p.Some? <==> IsMixEffectBlockMsg(m)
    ensures p.Some? ==> !p.value.OtherProperty?
  {
    match m
    case ProgramInputChanged => Some(ProgramInput)
    case PreviewInputChanged => Some(PreviewInput)
    case InTransitionChanged => Some(InTransition)
    case TransitionPositionChanged => Some(TransitionPosition)
    case TransitionFramesRemainingChanged => Some(TransitionFramesRemaining)
    case FadeToBlackFramesRemainingChanged => Some(FadeToBlackFramesRemaining)
    case InputLongNameChanged => None
    case SwitcherDisconnected => None
  }

  /**
   * ReportedProperty inverts MixEffectBlockMessage: a property is posted as a
   * message exactly when that message reports the property back.
   */
  lemma MixEffectBlockMessageInverse(p: MixEffectBlockPropertyId, m: Msg)
    ensures MixEffectBlockMessage(p) == Some(m) <==> ReportedProperty(m) == Some(p)
  {
  }

  /** The six recognised property ids go to six distinct message kinds. */
  lemma MixEffectBlockMessagesDistinct(p: MixEffectBlockPropertyId, q: MixEffectBlockPropertyId)
    requires MixEffectBlockMessage(p).Some?
    ensures MixEffectBlockMessage(p) == MixEffectBlockMessage(q) <==> p == q
  {
    MixEffectBlockMessageInverse(p, MixEffectBlockMessage(p).value);
    if MixEffectBlockMessage(q) == MixEffectBlockMessage(p) {
      MixEffectBlockMessageInverse(q, MixEffectBlockMessage(p).value);
    }
  }

  /** The message InputMonitor::Notify posts for an input event. */
  function InputEventMessage(e: InputEventType): (r: Option<Msg>)
    ensures r.Some? <==> e == LongNameChanged
    ensures r.Some? ==> r.value == InputLongNameChanged
  {
    if e == LongNameChanged then Some(InputLongNameChanged) else None
  }

  /** The message SwitcherMonitor::Notify posts for a switcher event. */
  function SwitcherEventMessage(e: SwitcherEventType): (r: Option<Msg>)
    ensures r.Some? <==> e == Disconnected
    ensures r.Some? ==> r.value == SwitcherDisconnected
  {
    if e == Disconnected then Some(SwitcherDisconnected) else None
  }

  /** What posting an optional message appends to the window's queue. */
  function Posted(r: Option<Msg>): seq<Msg> {
    if r.Some? then [r.value] else []
  }

  /** The three dispatchers post into disjoint sets of message kinds. */
  lemma DispatchersDisjoint(p: MixEffectBlockPropertyId, e: InputEventType, s: SwitcherEventType)
    ensures MixEffectBlockMessage(p).Some? ==> MixEffectBlockMessage(p) != InputEventMessage(e)
    ensures MixEffectBlockMessage(p).Some? ==> MixEffectBlockMessage(p) != SwitcherEventMessage(s)
    ensures InputEventMessage(e).Some? ==> InputEventMessage(e) != SwitcherEventMessage(s)
  {
  }
}
