/**
  The blink counter that `drawCharacter` advances once per rendered frame:
  `blinkTimer` counts frames since the last blink, `blinkState` is how
  closed the eyes still are. The random jitter of the re-trigger threshold
  (`Math.random() * 120`) is an input.
*/
module Character {
  import Numeric

  datatype Blink = Blink(timer: int, level: real)

  /** What one frame does: the new counter and the eye height it draws with. */
  datatype BlinkFrameResult = BlinkFrameResult(next: Blink, eyeHeight: int)

  const BlinkThreshold: real := 180.0
  const JitterRange: real := 120.0
  const BlinkDecay: real := 0.2
  const OpenEyeHeight: int := 10
  const ClosedEyeHeight: int := 2

  predicate Triggers(b: Blink, jitter: real) {
    (b.timer + 1) as real > BlinkThreshold + jitter
  }

  /** One frame of the counter, in source order: count, maybe re-trigger, pick the eye height, decay. */
  function BlinkFrame(b: Blink, jitter: real): (r: BlinkFrameResult)
    ensures Triggers(b, jitter) ==> r.next == Blink(0, 1.0 - BlinkDecay) && r.eyeHeight == ClosedEyeHeight
    ensures !Triggers(b, jitter) ==> r.next.timer == b.timer + 1
    ensures 0.0 <= b.level <= 1.0 ==> 0.0 <= r.next.level <= 1.0
  {
    var timer := b.timer + 1;
    var (timer', level) := if timer as real > BlinkThreshold + jitter then (0, 1.0) else (timer, b.level);
    var eyeHeight := if level > 0.0 then ClosedEyeHeight else OpenEyeHeight;
    var level' := if level > 0.0 then Numeric.Max(0.0, level - BlinkDecay) else level;
    BlinkFrameResult(Blink(timer', level'), eyeHeight)
  }

  /**
    The counter's invariant: the level is in [0, 1], and while the eyes are
    still closing it is 0.8 minus 0.2 for every frame since the blink.
  */
  predicate BlinkValid(b: Blink) {
    && 0 <= b.timer
    && 0.0 <= b.level <= 1.0
    && (b.level == 0.0 || (b.timer <= 3 && b.level == 0.8 - BlinkDecay * b.timer as real))
  }

  const InitialBlink: Blink := Blink(0, 0.0)

  lemma InitialBlinkValid()
    ensures BlinkValid(InitialBlink)
  {
  }

  /** Every frame keeps the invariant, and the eyes are drawn closed exactly when a blink starts or is under way. */
  lemma BlinkFramePreserves(b: Blink, jitter: real)
    requires BlinkValid(b) && 0.0 <= jitter
    ensures BlinkValid(BlinkFrame(b, jitter).next)
    ensures BlinkFrame(b, jitter).eyeHeight == ClosedEyeHeight <==> Triggers(b, jitter) || b.level > 0.0
    ensures BlinkFrame(b, jitter).eyeHeight == OpenEyeHeight <==> !(Triggers(b, jitter) || b.level > 0.0)
  {
  }

  /** The threshold is 180 plus a jitter in [0, 120): a blink re-triggers after 181 to 300 frames. */
  lemma TriggerWindow(b: Blink, jitter: real)
    requires 0.0 <= jitter < JitterRange
    ensures b.timer + 1 <= 180 ==> !Triggers(b, jitter)
    ensures b.timer + 1 >= 300 ==> Triggers(b, jitter)
  {
  }

  /** The counter after a run of frames with the given jitters. */
  function Advance(b: Blink, jitters: seq<real>): Blink
    decreases |jitters|
  {
    if jitters == [] then b else Advance(BlinkFrame(b, jitters[0]).next, jitters[1..])
  }

  /** After a blink resets the timer, the next 180 frames cannot blink again: the timer just counts them. */
  lemma {:induction false} NoBlinkWithin180(b: Blink, jitters: seq<real>)
    requires 0 <= b.timer && b.timer + |jitters| <= 180
    requires forall i :: 0 <= i < |jitters| ==> 0.0 <= jitters[i]
    ensures Advance(b, jitters).timer == b.timer + |jitters|
    decreases |jitters|
  {
    if jitters != [] {
      assert !Triggers(b, jitters[0]);
      NoBlinkWithin180(BlinkFrame(b, jitters[0]).next, jitters[1..]);
    }
  }

  /** The closure variables `blinkTimer` and `blinkState`. */
  class BlinkCounter {
    var timer: int
    var state: real

    function Value(): Blink
      reads this
    {
      Blink(timer, state)
    }

    constructor ()
      ensures Value() == InitialBlink
    {
      timer, state := 0, 0.0;
    }

    /** The eye lines of `drawCharacter`: returns `eyeH`. */
    method Frame(jitter: real) returns (eyeH: int)
      modifies this
      ensures Value() == BlinkFrame(old(Value()), jitter).next
      ensures eyeH == BlinkFrame(old(Value()), jitter).eyeHeight
    {
      timer := timer + 1;
      if timer as real > BlinkThreshold + jitter {
        state := 1.0;
        timer := 0;
      }
      eyeH := if state > 0.0 then ClosedEyeHeight else OpenEyeHeight;
      if state > 0.0 {
        state := Numeric.Max(0.0, state - BlinkDecay);
      }
    }
  }
}
