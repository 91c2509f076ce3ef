/**
  The typewriter of `drawBubble`: which dialogue line is on screen at a
  given `sceneTime` (in whole milliseconds) and how many of its characters
  are revealed. Each line gets a 3.5 s window; within it the revealed
  length follows `easeInOut` of the window's progress.
*/
module Typewriter {
  import opened Common
  import Numeric

  /** `per = 3.5` seconds, in milliseconds. */
  const WindowMs: int := 3500

  /** JavaScript's `%` on integers: truncates toward zero, so the remainder takes the dividend's sign. */
  function JsRem(a: int, b: int): (r: int)
    requires b > 0
    ensures a >= 0 ==> 0 <= r < b
    ensures a < 0 ==> -b < r <= 0
    ensures a >= 0 ==> r == a % b
  {
    if a >= 0 then a % b else -((-a) % b)
  }

  /** `Math.floor((sceneTime/1000) / per) % total`; Dafny's `/` by a positive divisor is the floor. */
  function LineIndex(sceneTime: int, total: int): (r: int)
    requires total > 0
    ensures sceneTime >= 0 ==> 0 <= r < total
    ensures sceneTime < 0 ==> -total < r <= 0
  {
    JsRem(sceneTime / WindowMs, total)
  }

  /** `((sceneTime/1000) % per) / per`, which is negative for a negative `sceneTime`. */
  function Progress(sceneTime: int): (p: real)
    ensures -1.0 < p < 1.0
    ensures sceneTime >= 0 ==> 0.0 <= p
  {
    JsRem(sceneTime, WindowMs) as real / WindowMs as real
  }

  /** `easeInOut(clamp(progress, 0, 1))`: the eased share of the line to reveal. */
  function Eased(sceneTime: int): (e: real)
    ensures 0.0 <= e <= 1.0
  {
    var p := Numeric.Clamp(Progress(sceneTime), 0.0, 1.0);
    assert 0.0 <= p <= 1.0;
    Numeric.EaseInOut(p)
  }

  /** `Math.floor(length * share)`: how many characters a share in [0, 1] of the line covers. */
  function RevealCount(len: nat, e: real): (n: int)
    requires 0.0 <= e <= 1.0
    ensures 0 <= n <= len
  {
    var d := len as real;
    Numeric.ScaleWithin(d, e);
    (d * e).Floor
  }

  /** `Math.floor(lines[idx].length * easeInOut(clamp(progress, 0, 1)))`. */
  function VisibleChars(len: nat, sceneTime: int): (n: int)
    ensures 0 <= n <= len
  {
    RevealCount(len, Eased(sceneTime))
  }

  /**
    The text `drawBubble` hands to `drawWrappedText`. `None` stands for the
    TypeError the page raises when the index is negative, since
    `lines[idx]` is then undefined.
  */
  function Reveal(lines: seq<string>, sceneTime: int): (r: Option<string>)
    requires |lines| > 0
    ensures sceneTime >= 0 ==> r.Some?
    ensures r.Some? ==> 0 <= LineIndex(sceneTime, |lines|) < |lines|
    ensures r.Some? ==> r.value <= lines[LineIndex(sceneTime, |lines|)]
  {
    var idx := LineIndex(sceneTime, |lines|);
    if idx < 0 then None
    else Some(lines[idx][..VisibleChars(|lines[idx]|, sceneTime)])
  }

  /** Within the k-th window the index is `k mod total` and the progress is the offset into the window. */
  lemma LineWindow(k: nat, offset: int, total: int)
    requires 0 <= offset < WindowMs && total > 0
    ensures 0 <= LineIndex(WindowMs * k + offset, total) < total
    ensures LineIndex(WindowMs * k + offset, total) == k % total
    ensures Progress(WindowMs * k + offset) == offset as real / WindowMs as real
  {
    var t := WindowMs * k + offset;
    assert t / WindowMs == k;
    assert t % WindowMs == offset;
  }

  /** Within one window the progress grows with the scene time. */
  lemma ProgressWithinWindow(t1: int, t2: int)
    requires 0 <= t1 <= t2 && t1 / WindowMs == t2 / WindowMs
    ensures Progress(t1) <= Progress(t2)
  {
    assert t2 % WindowMs - t1 % WindowMs == t2 - t1;
  }

  /** A larger share never covers fewer characters. */
  lemma RevealCountMonotone(len: nat, e1: real, e2: real)
    requires 0.0 <= e1 <= e2 <= 1.0
    ensures RevealCount(len, e1) <= RevealCount(len, e2)
  {
    var d := len as real;
    Numeric.MulMonotone(e1, e2, d);
    assert d * e1 <= d * e2;
  }

  /** A share below 1 leaves at least one character of a non-empty line hidden. */
  lemma RevealCountBelowLength(len: nat, e: real)
    requires len > 0 && 0.0 <= e < 1.0
    ensures RevealCount(len, e) < len
  {
    var d := len as real;
    Numeric.ScaleBelow(d, e);
  }

  /** Within one window the eased share never shrinks. */
  lemma EasedWithinWindow(t1: int, t2: int)
    requires 0 <= t1 <= t2 && t1 / WindowMs == t2 / WindowMs
    ensures Eased(t1) <= Eased(t2)
  {
    ProgressWithinWindow(t1, t2);
    var p1 := Numeric.Clamp(Progress(t1), 0.0, 1.0);
    var p2 := Numeric.Clamp(Progress(t2), 0.0, 1.0);
    Numeric.EaseMonotone(p1, p2);
  }

  /** Within one window the number of revealed characters never shrinks. */
  lemma VisibleCharsWithinWindow(len: nat, t1: int, t2: int)
    requires 0 <= t1 <= t2 && t1 / WindowMs == t2 / WindowMs
    ensures VisibleChars(len, t1) <= VisibleChars(len, t2)
  {
    EasedWithinWindow(t1, t2);
    RevealCountMonotone(len, Eased(t1), Eased(t2));
  }

  /** Inside one window the revealed text only grows: an earlier reveal is a prefix of a later one. */
  lemma RevealGrowsWithinWindow(lines: seq<string>, t1: int, t2: int)
    requires |lines| > 0
    requires 0 <= t1 <= t2 && t1 / WindowMs == t2 / WindowMs
    ensures Reveal(lines, t1).Some? && Reveal(lines, t2).Some?
    ensures Reveal(lines, t1).value <= Reveal(lines, t2).value
  {
    var idx := LineIndex(t1, |lines|);
    assert idx == LineIndex(t2, |lines|);
    VisibleCharsWithinWindow(|lines[idx]|, t1, t2);
  }

  /** Each window opens on an empty bubble. */
  lemma WindowStartRevealsNothing(lines: seq<string>, k: nat)
    requires |lines| > 0
    ensures Reveal(lines, WindowMs * k) == Some([])
  {
    LineWindow(k, 0, |lines|);
    Numeric.EaseFixedPoints();
  }

  /**
    Because the progress never reaches 1 inside a window, the last
    character of a non-empty line is never on screen.
  */
  lemma LastCharacterNeverShown(lines: seq<string>, sceneTime: int)
    requires |lines| > 0 && sceneTime >= 0
    requires |lines[LineIndex(sceneTime, |lines|)]| > 0
    ensures |Reveal(lines, sceneTime).value| < |lines[LineIndex(sceneTime, |lines|)]|
  {
    var len := |lines[LineIndex(sceneTime, |lines|)]|;
    Numeric.EaseBelowOne(Numeric.Clamp(Progress(sceneTime), 0.0, 1.0));
    RevealCountBelowLength(len, Eased(sceneTime));
  }

  /** A scene time up to one window before the start gives index -1, and the page throws. */
  lemma NegativeSceneTimeThrows(lines: seq<string>, sceneTime: int)
    requires |lines| > 1 && -WindowMs <= sceneTime < 0
    ensures Reveal(lines, sceneTime).None?
  {
    assert sceneTime / WindowMs == -1;
  }
}
