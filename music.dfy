/**
  The bass and lead pattern `recordVideo` schedules on the audio graph,
  as a list of note events instead of oscillator calls. Tempo is 90 BPM,
  so a beat is 2/3 s and a bar of four beats is 8/3 s. An event's time is
  counted in half-beats from `startAt`, its pitch in semitones from A4
  (440 Hz), its length in hundredths of a beat and its velocity in
  hundredths; all of these are exact.
*/
module Music {

  /** The oscillator type of a note. */
  datatype Wave = Sawtooth | Triangle

  /** One `note(freq, time, len, type, vel)` call. */
  datatype NoteEvent = NoteEvent(wave: Wave, pitch: int, start: nat, length: nat, velocity: nat)

  /** `60 / bpm` seconds with `bpm = 90`. */
  const Beat: real := 2.0 / 3.0
  /** `beat * 4`: the step of the bar loop. */
  const BarSeconds: real := 4.0 * Beat
  /** The chord progression `[0,5,3,7]`, one degree per bar. */
  const Degrees: seq<nat> := [0, 5, 3, 7]
  /** The scale `[0,2,3,5,7,8,10,12]`, in semitones above the note nine semitones under A4. */
  const ScaleSteps: seq<int> := [0, 2, 3, 5, 7, 8, 10, 12]
  /** The degrees the arpeggio adds to the chord's root: `root`, `+3`, `+5`, `+7`. */
  const ArpSteps: seq<nat> := [0, 3, 5, 7]

  /** `scale[i]`, as semitones from A4: `A4 * semitone^(n - 9)`. */
  function ScalePitch(i: nat): (r: int)
    requires i < 8
    ensures -9 <= r <= 3
  {
    assert ScaleSteps[i] in ScaleSteps;
    ScaleSteps[i] - 9
  }

  /** `rootIdx` of bar `k`: `[0,5,3,7][floor((t / (beat*4)) % 4)]` with `t = k * beat * 4`. */
  function RootIndex(k: nat): nat {
    Degrees[k % 4]
  }

  /** Bass note `i` of bar `k`: `note(root/2, barStart + i*beat, beat*0.95, 'sawtooth', 0.35)`. */
  function BassNote(k: nat, i: nat): (r: NoteEvent)
    requires i < 4
    ensures r.wave == Sawtooth && -21 <= r.pitch <= -9
    ensures 8 * k <= r.start < 8 * k + 8
  {
    NoteEvent(Sawtooth, ScalePitch(RootIndex(k) % 8) - 12, 8 * k + 2 * i, 95, 35)
  }

  /** Lead note `i` of bar `k`: `note(arp[i%4]*2, barStart + i*(beat/2), beat*0.4, 'triangle', 0.25 + (i%2)*0.1)`. */
  function LeadNote(k: nat, i: nat): (r: NoteEvent)
    requires i < 8
    ensures r.wave == Triangle && 3 <= r.pitch <= 15
    ensures 8 * k <= r.start < 8 * k + 8
  {
    NoteEvent(Triangle, ScalePitch((RootIndex(k) + ArpSteps[i % 4]) % 8) + 12, 8 * k + i, 40, 25 + (i % 2) * 10)
  }

  /** The twelve events of bar `k`, in the order they are scheduled: four bass notes, then eight lead notes. */
  function BarEvents(k: nat): (notes: seq<NoteEvent>)
    ensures |notes| == 12
  {
    seq(4, i requires 0 <= i < 4 => BassNote(k, i)) + seq(8, i requires 0 <= i < 8 => LeadNote(k, i))
  }

  /** The events of the first `n` bars. */
  function Bars(n: nat): (notes: seq<NoteEvent>)
    ensures |notes| == 12 * n
  {
    if n == 0 then [] else Bars(n - 1) + BarEvents(n - 1)
  }

  /** The number of bars the loop emits for `total` seconds: every `k` with `k * beat * 4 < total`. */
  function BarCount(total: real): (n: nat)
    ensures total <= 0.0 ==> n == 0
  {
    if total <= 0.0 then 0
    else
      var q := total / BarSeconds;
      if q.Floor as real == q then q.Floor else q.Floor + 1
  }

  /** When bar `k` starts, in seconds after `startAt`: `t = k * beat * 4`. */
  function BarStart(k: nat): real {
    k as real * BarSeconds
  }

  /** The bass line of bar `k`: the first inner loop. */
  method BassLine(k: nat) returns (notes: seq<NoteEvent>)
    ensures notes == seq(4, i requires 0 <= i < 4 => BassNote(k, i))
  {
    notes := [];
    for i := 0 to 4
      invariant notes == seq(i, j requires 0 <= j < i => BassNote(k, j))
    {
      notes := notes + [BassNote(k, i)];
    }
  }

  /** The lead arpeggio of bar `k`: the second inner loop. */
  method LeadLine(k: nat) returns (notes: seq<NoteEvent>)
    ensures notes == seq(8, i requires 0 <= i < 8 => LeadNote(k, i))
  {
    notes := [];
    for i := 0 to 8
      invariant notes == seq(i, j requires 0 <= j < i => LeadNote(k, j))
    {
      notes := notes + [LeadNote(k, i)];
    }
  }

  /** At `t = k * beat * 4` the bar index `t / (beat * 4)` is exactly `k`. */
  lemma BarIndexAt(k: nat)
    ensures (k as real * BarSeconds) / BarSeconds == k as real
  {
  }

  /** One pass of the bar loop in real arithmetic: the bar index at `t`, the next `t`, and progress toward `total`. */
  lemma BarStep(k: nat, t: real, total: real)
    requires t == BarStart(k)
    ensures (t / BarSeconds).Floor == k
    ensures t + BarSeconds == BarStart(k + 1)
    ensures (total - (t + BarSeconds)).Floor < (total - t).Floor
  {
    BarIndexAt(k);
  }

  /**
    `while (t < total) { ...; t += beat * 4 }`: every bar whose start is
    before `total` is emitted whole, and the bars end at or after `total`.
  */
  method Schedule(total: real) returns (events: seq<NoteEvent>, bars: nat)
    ensures events == Bars(bars)
    ensures forall k :: 0 <= k < bars ==> BarStart(k) < total
    ensures BarStart(bars) >= total
  {
    var t := 0.0;
    events, bars := [], 0;
    while t < total
      invariant t == BarStart(bars)
      invariant events == Bars(bars)
      invariant forall k :: 0 <= k < bars ==> BarStart(k) < total
      decreases (total - t).Floor
    {
      BarStep(bars, t, total);
      var rootIdx := Degrees[(t / BarSeconds).Floor % 4];
      assert rootIdx == RootIndex(bars);
      var bass := BassLine(bars);
      var lead := LeadLine(bars);
      events := events + bass + lead;
      t := t + BarSeconds;
      bars := bars + 1;
    }
  }

  /** The loop's bar count is the closed form: the least `n` with `n * beat * 4 >= total`. */
  lemma ScheduleBarCount(total: real, bars: nat)
    requires forall k :: 0 <= k < bars ==> BarStart(k) < total
    requires BarStart(bars) >= total
    ensures bars == BarCount(total)
    ensures total > 0.0 ==> bars >= 1
  {
    assert BarSeconds == 8.0 / 3.0;
    assert bars > 0 ==> BarStart(0) < total;
    if total > 0.0 {
      var q := total / BarSeconds;
      assert q * BarSeconds == total;
      assert bars as real >= q;
      assert bars > 0;
      assert BarStart(bars - 1) < total;
      assert (bars - 1) as real < q;
      var f := q.Floor;
      if f as real == q {
        assert bars == f;
      } else {
        assert f as real < q < f as real + 1.0;
        assert bars == f + 1;
      }
    }
  }

  lemma SliceOfLeft<T>(a: seq<T>, b: seq<T>, i: nat, j: nat)
    requires i <= j <= |a|
    ensures (a + b)[i..j] == a[i..j]
  {
  }

  lemma SliceOfRight<T>(a: seq<T>, b: seq<T>)
    ensures (a + b)[|a|..|a| + |b|] == b
  {
  }

  /** Bar `k` sits at events `12k .. 12k+11` of the schedule. */
  lemma {:induction false} BarsAt(n: nat, k: nat)
    requires k < n
    ensures Bars(n)[12 * k .. 12 * k + 12] == BarEvents(k)
    decreases n
  {
    var before := Bars(n - 1);
    assert Bars(n) == before + BarEvents(n - 1);
    if k < n - 1 {
      BarsAt(n - 1, k);
      SliceOfLeft(before, BarEvents(n - 1), 12 * k, 12 * k + 12);
    } else {
      SliceOfRight(before, BarEvents(n - 1));
    }
  }

  /**
    The shape of bar `k`: four sawtooth bass notes one beat apart on the
    chord root an octave down, then eight triangle lead notes half a beat
    apart cycling through root, +3, +5 and +7 scale degrees an octave up,
    with alternating velocities 0.25 and 0.35.
  */
  lemma BarShape(k: nat, i: nat)
    requires i < 12
    ensures var e := BarEvents(k)[i];
      && (i < 4 ==> e.wave == Sawtooth && e.start == 8 * k + 2 * i && e.length == 95 && e.velocity == 35
                    && e.pitch == ScalePitch(Degrees[k % 4]) - 12)
      && (4 <= i ==> e.wave == Triangle && e.start == 8 * k + (i - 4) && e.length == 40
                     && e.velocity == (if i % 2 == 0 then 25 else 35)
                     && e.pitch == ScalePitch((Degrees[k % 4] + ArpSteps[(i - 4) % 4]) % 8) + 12)
  {
  }

  /** The amplitude envelope `note` programs: its breakpoints in seconds and its peak. */
  datatype Envelope = Envelope(start: real, attackEnd: real, peak: real, decayEnd: real, stop: real)

  /**
    `setValueAtTime(0.0001, time)`, `linearRampToValueAtTime(vel, time+0.01)`,
    `exponentialRampToValueAtTime(0.0001, time+len)` and `stop(time+len+0.05)`
    for an event scheduled from `startAt`.
  */
  function EnvelopeOf(e: NoteEvent, startAt: real): (env: Envelope)
    ensures startAt <= env.start < env.attackEnd && env.stop == env.decayEnd + 0.05
    ensures e.length >= 2 ==> env.attackEnd < env.decayEnd
  {
    var time := startAt + e.start as real * (Beat / 2.0);
    var len := e.length as real / 100.0 * Beat;
    Envelope(time, time + 0.01, e.velocity as real / 100.0, time + len, time + len + 0.05)
  }

  /** Every scheduled note attacks for 10 ms, decays until its length has passed and is released 50 ms later. */
  lemma EnvelopeOrdered(k: nat, i: nat, startAt: real)
    requires i < 12
    ensures var env := EnvelopeOf(BarEvents(k)[i], startAt);
      && env.start < env.attackEnd < env.decayEnd < env.stop
      && env.stop == env.decayEnd + 0.05
      && env.peak in {0.25, 0.35}
  {
    BarShape(k, i);
  }

  /** At the default 15 s the loop emits six bars: the last one, from 13.33 s to 16 s, runs past the end. */
  lemma LastBarNotTruncated()
    ensures BarCount(15.0) == 6
    ensures 5.0 * BarSeconds < 15.0 < 6.0 * BarSeconds
  {
  }
}
