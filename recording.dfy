/**
  The recording length `recordVideo` reads from its form,
  `clamp(Number(durationInput.value) || 15, 5, 60)`, and how many bars of
  music that length schedules. `Number(...)` is left to the caller: the
  input here is the number it produced.
*/
module Recording {
  import opened Common
  import Numeric
  import Music

  /**
    `clamp(v, lo, hi) = Math.max(lo, Math.min(hi, v))` on any JavaScript
    number: infinities are clamped like any other value and NaN stays NaN.
  */
  function ClampNumber(v: JsNumber, lo: real, hi: real): (r: JsNumber)
    requires lo <= hi
    ensures r.NaN? <==> v.NaN?
    ensures r.Finite? ==> lo <= r.value <= hi
    ensures v.Finite? && lo <= v.value <= hi ==> r == v
  {
    match v
    case Finite(x) => Finite(Numeric.Clamp(x, lo, hi))
    case PosInfinity => Finite(hi)
    case NegInfinity => Finite(lo)
    case NaN => NaN
  }

  const DefaultDuration: real := 15.0
  const MinDuration: real := 5.0
  const MaxDuration: real := 60.0

  /** `durationSec`: a falsy number (0 or NaN, so also an empty field) means the default of 15 s. */
  function DurationOf(n: JsNumber): (d: JsNumber)
    ensures d.Finite? && MinDuration <= d.value <= MaxDuration
    ensures Falsy(n) ==> d == Finite(DefaultDuration)
    ensures n.Finite? && MinDuration <= n.value <= MaxDuration ==> d == n
  {
    ClampNumber(if Falsy(n) then Finite(DefaultDuration) else n, MinDuration, MaxDuration)
  }

  /** Out-of-range and missing values: 3 becomes 5, 90 becomes 60, 0 and NaN become 15. */
  lemma DurationExamples()
    ensures DurationOf(Finite(3.0)) == Finite(5.0)
    ensures DurationOf(Finite(90.0)) == Finite(60.0)
    ensures DurationOf(Finite(0.0)) == Finite(15.0)
    ensures DurationOf(NaN) == Finite(15.0)
    ensures DurationOf(PosInfinity) == Finite(60.0) && DurationOf(NegInfinity) == Finite(5.0)
  {
  }

  /** Any recording length schedules between two bars (5 s) and twenty-three bars (60 s) of music. */
  lemma RecordingBarCount(n: JsNumber)
    ensures 2 <= Music.BarCount(DurationOf(n).value) <= 23
  {
    var total := DurationOf(n).value;
    assert Music.BarSeconds == 8.0 / 3.0;
    var q := total / Music.BarSeconds;
    assert q == total * 3.0 / 8.0;
    assert 1.875 <= q <= 22.5;
    var f := q.Floor;
    assert 1 <= f <= 22;
    if f as real == q {
      assert f >= 2;
    }
  }
}
