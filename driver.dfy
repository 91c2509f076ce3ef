/**
  The animation driver: `startAnimation`, the `requestAnimationFrame`
  callback `loop` and `stopAnimation`. Times are whole milliseconds; the
  clock reading `performance.now()` and the callback's timestamp are
  parameters, and so are the configuration the page reads from its form
  (frame rate, seed, scene settings) and the blink jitter `Math.random()`.
  A rendered frame is recorded as what it shows that the model tracks: the
  eye height of the blink counter and the typewriter caption.
*/
module Driver {
  import opened Common
  import Numeric
  import Xorshift
  import Scene
  import Character
  import Typewriter

  /** One `program.render(now)` call: its timestamp, the `sceneTime` it read, the eye height and the caption. */
  datatype Frame = Frame(now: int, sceneTime: int, eyeHeight: int, caption: string)

  /** `dt >= frameMs - 1`: the throttle's test for drawing a frame. */
  predicate FrameDue(dt: int, frameMs: real) {
    dt as real >= frameMs - 1.0
  }

  /** `1000 / fps`. */
  function FrameMs(fps: int): (ms: real)
    requires fps > 0
    ensures ms > 0.0 && ms * fps as real == 1000.0
  {
    1000.0 / fps as real
  }

  /**
    With a whole number of milliseconds and a positive whole frame rate the
    throttle's test is exact integer arithmetic: `dt * fps >= 1000 - fps`.
  */
  lemma FrameDueIff(dt: int, fps: int)
    requires fps > 0
    ensures FrameDue(dt, FrameMs(fps)) <==> dt * fps >= 1000 - fps
  {
    var d, f, q := dt as real, fps as real, FrameMs(fps);
    var gap := d - (q - 1.0);
    assert gap * f == d * f - 1000.0 + f;
    if gap >= 0.0 {
      Numeric.NonNegProduct(gap, f);
    } else {
      Numeric.PositiveProduct(-gap, f);
    }
    assert (dt * fps) as real == d * f;
  }

  /**
    The test never lets an earlier timestamp through: `1000 / fps - 1` is
    above -1, and a whole number of milliseconds above -1 is not negative.
  */
  lemma FrameDueMovesForward(dt: int, fps: int)
    requires fps > 0 && FrameDue(dt, FrameMs(fps))
    ensures dt >= 0
  {
    FrameDueIff(dt, fps);
  }

  /** `Math.floor(Math.random() * 1e9)`: every seed the page can draw is below this. */
  const PageSeedBound: int := 1000000000

  /** The module-level state of the page that the driver reads and writes. */
  class AnimationDriver {
    /** The seed drawn once when the page loads; nothing assigns it again. */
    const seed: int
    var isAnimating: bool
    /** Whether a `requestAnimationFrame(loop)` callback is pending (`animReq`). */
    var scheduled: bool
    var startTime: int
    var sceneTime: int
    var fps: int
    /** The frame rate the running `loop` closure computed its `frameMs` from, and its `last`. */
    var loopFps: int
    var last: int
    var program: Option<Scene.Program>
    /** The blink counter of the running program's closure. */
    var blink: Character.BlinkCounter
    /** Every frame rendered so far, oldest first. */
    var frames: seq<Frame>

    /**
      While animating there is a program, the frame length belongs to a
      positive frame rate, and the last accepted frame is never before the
      start.
    */
    ghost predicate Valid()
      reads this
    {
      && 0 <= seed < PageSeedBound
      && (isAnimating ==> program.Some? && |program.value.lines| == 3 && loopFps > 0 && startTime <= last)
    }

    /** The page's initial state, given the seed it drew: not animating, `sceneTime = 0`, `fps = 30`, no program. */
    constructor (pageSeed: int)
      requires 0 <= pageSeed < PageSeedBound
      ensures Valid() && seed == pageSeed
      ensures !isAnimating && !scheduled && sceneTime == 0 && startTime == 0 && fps == 30
      ensures program == None && frames == [] && fresh(blink)
    {
      seed := pageSeed;
      isAnimating, scheduled := false, false;
      startTime, sceneTime, fps := 0, 0, 30;
      loopFps, last := 0, 0;
      program := None;
      blink := new Character.BlinkCounter();
      frames := [];
    }

    /**
      `startAnimation()`: a no-op while animating; otherwise reads the frame
      rate, restarts the scene clock at `now`, builds a fresh scene program
      from the page's one seed and schedules the first callback.
    */
    method StartAnimation(now: int, fpsSetting: int, cfg: Scene.Config)
      requires Valid() && fpsSetting > 0
      modifies this
      ensures Valid()
      ensures old(isAnimating) ==> unchanged(this)
      ensures !old(isAnimating) ==>
        && isAnimating && scheduled
        && fps == fpsSetting && loopFps == fpsSetting
        && startTime == now && sceneTime == 0 && last == now
        && program == Some(Scene.SceneOf(Xorshift.SeedState(seed), cfg))
        && fresh(blink) && blink.Value() == Character.InitialBlink
        && frames == old(frames)
    {
      if isAnimating {
        return;
      }
      var p := Scene.MakeSceneProgram(seed, cfg);
      Begin(now, fpsSetting, p);
    }

    /** The body of `startAnimation` past its guard, given the program `makeSceneProgram()` built. */
    method Begin(now: int, fpsSetting: int, p: Scene.Program)
      requires fpsSetting > 0 && |p.lines| == 3
      modifies this
      requires 0 <= seed < PageSeedBound
      ensures Valid()
      ensures isAnimating && scheduled
      ensures fps == fpsSetting && loopFps == fpsSetting
      ensures startTime == now && sceneTime == 0 && last == now
      ensures program == Some(p)
      ensures fresh(blink) && blink.Value() == Character.InitialBlink
      ensures frames == old(frames)
    {
      fps := fpsSetting;
      isAnimating := true;
      startTime := now;
      sceneTime := 0;
      program := Some(p);
      blink := new Character.BlinkCounter();
      loopFps := fps;
      last := startTime;
      scheduled := true;
    }

    /**
      `loop(now)`, the delivered callback. Stopped: it returns at once, so it
      renders nothing and schedules nothing. Otherwise, when the frame is
      due it sets `sceneTime = now - startTime`, renders (advancing the blink
      counter and computing the caption) and sets `last = now`; due or not
      it schedules the next callback. A due frame never reads a negative
      `sceneTime` (`DueFrameRenders`), so the caption's `lines[idx]` is
      always defined here.
    */
    method Tick(now: int, jitter: real)
      requires Valid()
      modifies this, blink
      ensures Valid() && blink == old(blink)
      ensures !old(isAnimating) ==>
        && !scheduled && frames == old(frames)
        && sceneTime == old(sceneTime) && last == old(last)
        && blink.Value() == old(blink.Value())
      ensures old(isAnimating) ==> scheduled
      ensures old(isAnimating) && !FrameDue(now - old(last), FrameMs(old(loopFps))) ==>
        && frames == old(frames) && sceneTime == old(sceneTime) && last == old(last)
        && blink.Value() == old(blink.Value())
      ensures old(isAnimating) && FrameDue(now - old(last), FrameMs(old(loopFps))) ==>
        && sceneTime == now - old(startTime) && sceneTime >= 0 && last == now
        && blink.Value() == Character.BlinkFrame(old(blink.Value()), jitter).next
        && frames == old(frames) + [Frame(now, sceneTime, Character.BlinkFrame(old(blink.Value()), jitter).eyeHeight,
                                          Typewriter.Reveal(old(program).value.lines, sceneTime).value)]
      ensures isAnimating == old(isAnimating) && startTime == old(startTime) && program == old(program)
      ensures fps == old(fps) && loopFps == old(loopFps)
    {
      scheduled := false;
      if !isAnimating {
        return;
      }
      var dt := now - last;
      if FrameDue(dt, FrameMs(loopFps)) {
        DueFrameRenders(startTime, last, now, loopFps, program.value.lines);
        sceneTime := now - startTime;
        var eyeH := blink.Frame(jitter);
        var caption := Typewriter.Reveal(program.value.lines, sceneTime).value;
        frames := frames + [Frame(now, sceneTime, eyeH, caption)];
        last := now;
      }
      scheduled := true;
    }

    /** `stopAnimation()`: cancels the pending callback and stops; nothing else changes. */
    method Stop()
      requires Valid()
      modifies this
      ensures Valid() && !isAnimating && !scheduled
      ensures startTime == old(startTime) && sceneTime == old(sceneTime) && last == old(last)
      ensures fps == old(fps) && loopFps == old(loopFps) && program == old(program)
      ensures blink == old(blink) && frames == old(frames)
    {
      isAnimating := false;
      scheduled := false;
    }
  }

  /**
    A rendered frame never reads a negative `sceneTime`, so the caption
    never throws: a due frame is always drawn and the loop keeps going.
  */
  lemma DueFrameRenders(startTime: int, last: int, now: int, fps: int, lines: seq<string>)
    requires 0 < fps && startTime <= last && |lines| > 0
    requires FrameDue(now - last, FrameMs(fps))
    ensures now - startTime >= 0 && Typewriter.Reveal(lines, now - startTime).Some?
  {
    FrameDueMovesForward(now - last, fps);
  }

  /**
    The page draws its seed once, so every start in one page session
    rebuilds the same star, cloud and hair tables, whatever the inputs
    say; only the palette, the outfit and the lines follow the inputs.
  */
  lemma SessionTablesFixed(seed: int, cfg1: Scene.Config, cfg2: Scene.Config)
    ensures var p1 := Scene.SceneOf(Xorshift.SeedState(seed), cfg1);
      var p2 := Scene.SceneOf(Xorshift.SeedState(seed), cfg2);
      p1.stars == p2.stars && p1.clouds == p2.clouds && p1.hairDraw == p2.hairDraw && p1.hair == p2.hair
  {
  }
}
