/**
 * The transition slider. The device reports the transition position as a
 * fraction in [0, 1]; the slider shows it as an integer in [0, 100], and
 * after every transition that passed halfway the slider's direction flips,
 * so that the handle stays where the transition left it.
 */
module Slider {

  /** Scroll codes of the two slider events the panel handles. */
  const SB_THUMBPOSITION: int := 4
  const SB_THUMBTRACK: int := 5

  /** Unsigned 32-bit integers (UINT). */
  const UINT_MODULUS: int := 0x1_0000_0000
  type Uint = x: int | 0 <= x < 0x1_0000_0000

  /** The C conversion of a floating value to int: truncation toward zero. */
  function TruncateToInt(x: real): (n: int)
    ensures x >= 0.0 ==> n as real <= x < n as real + 1.0
    ensures x < 0.0 ==> n as real - 1.0 < x <= n as real
  {
    if x >= 0.0 then x.Floor else -((-x).Floor)
  }

  /** The unrounded slider position for a device position. */
  function SliderTarget(position: real, downwards: bool): real {
    if downwards then 100.0 - position * 100.0 else position * 100.0
  }

  /** The slider position shown for a device position: the target rounded half-up. */
  function SliderValue(position: real, downwards: bool): (v: int)
    ensures SliderTarget(position, downwards) >= -0.5 ==>
              SliderTarget(position, downwards) - 0.5 < v as real <= SliderTarget(position, downwards) + 0.5
    ensures 0.0 <= position <= 1.0 ==> 0 <= v <= 100
  {
    TruncateToInt(SliderTarget(position, downwards) + 0.5)
  }

  /**
   * The device position written for a slider position. When the slider is
   * flipped, 100 - nPos is computed in unsigned arithmetic.
   */
  function PositionForSlider(nPos: Uint, downwards: bool): (p: real)
    ensures nPos <= 100 ==> 0.0 <= p <= 1.0
    // on the slider's own range, reading the position back shows the same slider value
    ensures nPos <= 100 ==> SliderValue(p, downwards) == nPos
  {
    var p := if downwards then ((100 - nPos) % UINT_MODULUS) as real / 100.0 else nPos as real / 100.0;
    if nPos <= 100 then PerCentShownBack(nPos, downwards); p else p
  }

  /** A whole per cent written as a position is shown back as the same slider value. */
  lemma PerCentShownBack(n: int, downwards: bool)
    requires 0 <= n <= 100
    ensures SliderValue((if downwards then 100 - n else n) as real / 100.0, downwards) == n
  {
    var p := (if downwards then 100 - n else n) as real / 100.0;
    assert SliderTarget(p, downwards) == n as real;
    assert TruncateToInt(n as real + 0.5) == n;
  }

  function Abs(x: real): real {
    if x < 0.0 then -x else x
  }

  /**
   * The other direction of the round trip: writing back the slider value
   * shown for a position moves the device by at most half a per cent.
   */
  lemma PositionRoundTrip(position: real, downwards: bool)
    requires 0.0 <= position <= 1.0
    ensures Abs(PositionForSlider(SliderValue(position, downwards) as Uint, downwards) - position) <= 0.005
  {
    var v := SliderValue(position, downwards);
    var t := SliderTarget(position, downwards);
    assert t - 0.5 < v as real <= t + 0.5;
  }

  /**
   * Why the direction flips: a device position p shown in one direction and
   * 1 - p shown in the other put the handle at the same place.
   */
  lemma HandleStaysOnFlip(position: real, downwards: bool)
    ensures SliderValue(1.0 - position, !downwards) == SliderValue(position, downwards)
  {
    assert SliderTarget(1.0 - position, !downwards) == SliderTarget(position, downwards);
  }

  /** The dialog state the slider logic reads and writes. */
  datatype SliderState = SliderState(moveDownwards: bool, reachedHalfway: bool, sliderPos: int)

  /** updateSliderPosition, given the position read from the device. */
  function AfterPositionRead(s: SliderState, position: real): SliderState {
    s.(reachedHalfway := position >= 0.5, sliderPos := SliderValue(position, s.moveDownwards))
  }

  /**
   * The in-transition handler, given the in-transition flag and (for the
   * slider update it may make) the position read from the device.
   */
  function AfterInTransitionRead(s: SliderState, inTransition: bool, position: real): (t: SliderState)
    // the direction flips exactly when a transition ends after passing halfway
    ensures t.moveDownwards != s.moveDownwards <==> !inTransition && s.reachedHalfway
    ensures !inTransition ==> !t.reachedHalfway
    ensures inTransition ==> t == s
    ensures !inTransition && s.reachedHalfway ==> t.sliderPos == SliderValue(position, t.moveDownwards)
    ensures !(!inTransition && s.reachedHalfway) ==> t.sliderPos == s.sliderPos
  {
    if inTransition then s
    else if s.reachedHalfway then
      AfterPositionRead(s.(moveDownwards := !s.moveDownwards), position).(reachedHalfway := false)
    else s.(reachedHalfway := false)
  }

  /** A run of position reads, in order. */
  function AfterPositionReads(s: SliderState, positions: seq<real>): SliderState
    decreases |positions|
  {
    if positions == [] then s else AfterPositionReads(AfterPositionRead(s, positions[0]), positions[1..])
  }

  /**
   * After a run of position reads the halfway flag and the slider reflect
   * the last position only, and the direction is unchanged.
   */
  lemma {:induction false} PositionReadsKeepLast(s: SliderState, positions: seq<real>)
    requires positions != []
    ensures AfterPositionReads(s, positions).moveDownwards == s.moveDownwards
    ensures AfterPositionReads(s, positions).reachedHalfway == (positions[|positions| - 1] >= 0.5)
    ensures AfterPositionReads(s, positions).sliderPos == SliderValue(positions[|positions| - 1], s.moveDownwards)
    decreases |positions|
  {
    if |positions| > 1 {
      PositionReadsKeepLast(AfterPositionRead(s, positions[0]), positions[1..]);
    }
  }

  /** A burst of identical position signals leaves the state a single one leaves. */
  lemma CoalescedPositionReads(s: SliderState, position: real, n: nat)
    requires n >= 1
    ensures AfterPositionReads(s, seq(n, _ => position)) == AfterPositionRead(s, position)
  {
    PositionReadsKeepLast(s, seq(n, _ => position));
  }

  /**
   * Over a whole transition (position reads, then the end of the transition)
   * the direction flips exactly when the last position read was at least
   * halfway, and the halfway flag is clear afterwards.
   */
  lemma TransitionFlipsIff(s: SliderState, positions: seq<real>, endPosition: real)
    requires positions != []
    ensures var t := AfterInTransitionRead(AfterPositionReads(s, positions), false, endPosition);
            (t.moveDownwards != s.moveDownwards <==> positions[|positions| - 1] >= 0.5) && !t.reachedHalfway
  {
    PositionReadsKeepLast(s, positions);
  }

  /** A second end-of-transition signal changes nothing. */
  lemma EndOfTransitionIdempotent(s: SliderState, p: real, q: real)
    ensures AfterInTransitionRead(AfterInTransitionRead(s, false, p), false, q) == AfterInTransitionRead(s, false, p)
  {
  }
}
