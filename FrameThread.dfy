/** FrameThread: a loop that calls `frame(frameTime)` and then sleeps for what is left of the
    frame, `1000 / rate` milliseconds long.

    The thread itself, the clock and `Thread.sleep` are not modelled: the time each frame took is
    an input, and the pause the loop asks for (or the exception `Thread.sleep` throws for a
    negative pause) is the output. `DEBUG` (the build flag) is a parameter. */
module Frames {
  import opened JavaLang

  /** `DEFAULT_FRAME_RATE`. */
  const DefaultFrameRate: int32 := 60

  /** What one turn of the loop ends with: the pause passed to `Thread.sleep` and, in debug
      builds, the number of frames it logs as skipped. */
  datatype Pacing = Pacing(sleep: int, frameSkip: nat)

  /** `Thread.sleep(ms)`: a negative pause throws IllegalArgumentException. */
  function SleepFor(ms: int, frameSkip: nat): (r: Result<Pacing>)
    ensures r.Ok? <==> ms >= 0
    ensures r.Ok? ==> r.value == Pacing(ms, frameSkip)
    ensures r.Err? ==> r.error == IllegalArgument
  {
    if ms < 0 then Err(IllegalArgument) else Ok(Pacing(ms, frameSkip))
  }

  /** The pause after a frame that took `elapsed` milliseconds, in closed form. Without an
      overrun it is what is left of the frame. On an overrun the debug build removes whole frames
      one at a time and counts them, while the production build takes the Java remainder. */
  function Paced(elapsed: int, frameWait: int, debug: bool): Result<Pacing>
    requires debug && elapsed > frameWait ==> frameWait > 0
  {
    if elapsed <= frameWait then SleepFor(frameWait - elapsed, 0)
    else if debug then
      var skip := (elapsed - 1) / frameWait;
      SleepFor(frameWait - (elapsed - skip * frameWait), skip)
    else
      match JavaRem(elapsed, frameWait)
      case Err(e) => Err(e)
      case Ok(rest) => SleepFor(frameWait - rest, 0)
  }

  /** The pacing part of `run()`: the overrun check, the debug subtraction loop or the production
      remainder, then the pause. */
  method Pace(elapsed0: int, frameWait: int, debug: bool) returns (r: Result<Pacing>)
    requires debug && elapsed0 > frameWait ==> frameWait > 0
    ensures r == Paced(elapsed0, frameWait, debug)
  {
    var elapsed := elapsed0;
    var frameSkip: nat := 0;
    if elapsed > frameWait {
      if debug {
        while elapsed > frameWait
          invariant elapsed == elapsed0 - frameSkip * frameWait
          invariant elapsed >= 1
          decreases elapsed
        {
          elapsed := elapsed - frameWait;
          frameSkip := frameSkip + 1;
        }
        SkippedFrames(elapsed0, frameWait, frameSkip, elapsed);
      } else {
        var rest := JavaRem(elapsed, frameWait);
        if rest.Err? {
          return Err(rest.error);
        }
        elapsed := rest.value;
      }
    }
    r := SleepFor(frameWait - elapsed, frameSkip);
  }

  /** The debug loop's count is the number of whole frames strictly before the last one. */
  lemma SkippedFrames(elapsed0: int, frameWait: int, skip: nat, rest: int)
    requires frameWait > 0 && elapsed0 == rest + skip * frameWait && 1 <= rest <= frameWait
    ensures skip == (elapsed0 - 1) / frameWait
  {
    DivUnique(elapsed0 - 1, frameWait, skip, rest - 1);
  }

  /** Euclidean division has one quotient and one remainder. */
  lemma DivUnique(a: int, b: int, q: int, r: int)
    requires b > 0 && a == q * b + r && 0 <= r < b
    ensures a / b == q && a % b == r
  {
    var q', r' := a / b, a % b;
    assert a == q' * b + r' && 0 <= r' < b;
    MulDistributes(q, q', b);
    MulDistributes(q', q, b);
    if q' < q {
      MulAtLeast(q - q', b);
      assert false;
    } else if q' > q {
      MulAtLeast(q' - q, b);
      assert false;
    }
  }

  lemma MulDistributes(x: int, y: int, m: int)
    ensures (x - y) * m == x * m - y * m
  {
  }

  lemma {:induction false} MulAtLeast(n: int, m: int)
    requires n >= 1 && m > 0
    ensures n * m >= m
    decreases n
  {
    if n > 1 {
      MulAtLeast(n - 1, m);
      assert n * m == (n - 1) * m + m;
    }
  }

  /** A frame that finishes in time sleeps for the rest of it, which lies between 0 and a whole
      frame; a frame that overruns makes the production build sleep between 1 millisecond and a
      whole frame, and the debug build between 0 and one millisecond less than a frame, after
      skipping the whole frames that fit before the overrun. */
  lemma PacedBounds(elapsed: int, frameWait: int, debug: bool)
    requires frameWait > 0 && elapsed >= 0
    ensures Paced(elapsed, frameWait, debug).Ok?
    ensures var p := Paced(elapsed, frameWait, debug).value;
      && 0 <= p.sleep <= frameWait
      && (elapsed <= frameWait ==> p.sleep == frameWait - elapsed && p.frameSkip == 0)
      && (elapsed > frameWait && !debug ==> 1 <= p.sleep && p.frameSkip == 0)
      && (elapsed > frameWait && debug ==>
            p.sleep <= frameWait - 1 && p.frameSkip * frameWait < elapsed <= (p.frameSkip + 1) * frameWait
            && p.sleep == (p.frameSkip + 1) * frameWait - elapsed)
  {
    if elapsed > frameWait {
      if debug {
        var skip := (elapsed - 1) / frameWait;
        DivUnique(elapsed - 1, frameWait, skip, (elapsed - 1) % frameWait);
        assert (skip + 1) * frameWait == skip * frameWait + frameWait;
      } else {
        assert JavaRem(elapsed, frameWait) == Ok(elapsed % frameWait);
      }
    }
  }

  /** When a frame takes an exact multiple of the frame length (two frames or more), the debug
      build sleeps 0 and logs one frame fewer than the multiple, while the production build
      sleeps a whole frame: the two branches disagree by one frame. */
  lemma PacedOnMultiples(k: nat, frameWait: int)
    requires k >= 2 && frameWait > 0
    ensures Paced(k * frameWait, frameWait, true) == Ok(Pacing(0, k - 1))
    ensures Paced(k * frameWait, frameWait, false) == Ok(Pacing(frameWait, 0))
  {
    var e := k * frameWait;
    assert e == (k - 1) * frameWait + frameWait;
    MulAtLeast(k - 1, frameWait);
    SkippedFrames(e, frameWait, k - 1, frameWait);
    DivUnique(e, frameWait, k, 0);
    assert JavaRem(e, frameWait) == Ok(0);
  }

  /** A rate above 1000 frames a second makes `frameWait` 0: the production build then divides by
      zero on the first overrun, and a negative rate makes every overrun ask for a negative
      pause. */
  lemma PacedDegenerateWait(elapsed: int, frameWait: int)
    requires elapsed > frameWait && frameWait <= 0
    ensures frameWait == 0 ==> Paced(elapsed, frameWait, false) == Err(Arithmetic)
    ensures frameWait < 0 ==> Paced(elapsed, frameWait, false) == Err(IllegalArgument)
  {
    if frameWait < 0 {
      var rest := JavaRem(elapsed, frameWait).value;
      assert -(-frameWait) < rest;
    }
  }

  /** The `start(rate)` wait: `1000 / rate` milliseconds. */
  function FrameWaitFor(frameRate: int32): (r: Result<int>)
    ensures r.Err? <==> frameRate == 0
    ensures frameRate > 1000 ==> r == Ok(0)
    ensures 0 < frameRate <= 1000 ==> r.Ok? && 1 <= r.value <= 1000 && r.value * frameRate as int <= 1000
    ensures -1000 <= frameRate < 0 ==> r.Ok? && -1000 <= r.value <= -1 && r.value * frameRate as int <= 1000
    ensures frameRate < -1000 ==> r == Ok(0)
  {
    JavaDiv(1000, frameRate as int)
  }

  class FrameThread {
    /** `thread != null`. */
    var running: bool
    /** `frameWait`, in milliseconds. */
    var frameWait: int
    /** `frameTime`, in seconds. */
    var frameTime: real

    /** Field initialisers: `thread` starts as a fresh, unstarted `Thread`, so it is not null. */
    constructor ()
      ensures running && frameWait == 0 && frameTime == 0.0
    {
      running, frameWait, frameTime := true, 0, 0.0;
    }

    /** `start(frameRate)`: a rate of 0 throws before any field changes. */
    method Start(frameRate: int32) returns (outcome: Outcome)
      modifies this
      ensures frameRate == 0 ==> outcome == Fail(Arithmetic) && unchanged(this)
      ensures frameRate != 0 ==> outcome == Pass && running
      ensures frameRate != 0 ==> frameWait == FrameWaitFor(frameRate).value && frameTime == frameWait as real / 1000.0
    {
      var wait := FrameWaitFor(frameRate);
      if wait.Err? {
        return Fail(wait.error);
      }
      frameWait := wait.value;
      frameTime := frameWait as real / 1000.0;
      running := true;
      outcome := Pass;
    }

    /** `start()`: 60 frames a second, so 16 milliseconds a frame. */
    method StartDefault() returns (outcome: Outcome)
      modifies this
      ensures outcome == Pass && running && frameWait == 16 && frameTime == 16.0 / 1000.0
    {
      outcome := Start(DefaultFrameRate);
    }

    /** `stop()`: the loop ends at its next check; a frame already running is not cut short. */
    method Stop()
      modifies this
      ensures !running && frameWait == old(frameWait) && frameTime == old(frameTime)
    {
      if running {
        running := false;
      }
    }

    /** `run()` over the given frame durations: one `frame(frameTime)` call per turn, then the
        pause. The loop only runs while the thread is set; an exception from `Thread.sleep` is not
        caught and ends it. */
    method Run(durations: seq<int>, debug: bool) returns (frames: nat, paces: seq<Pacing>, outcome: Outcome)
      requires forall i :: 0 <= i < |durations| ==> (debug && durations[i] > frameWait ==> frameWait > 0)
      ensures frames == |paces| + (if outcome.Fail? then 1 else 0) && frames <= |durations|
      ensures forall i :: 0 <= i < |paces| ==> Paced(durations[i], frameWait, debug) == Ok(paces[i])
      ensures outcome.Fail? ==> Paced(durations[|paces|], frameWait, debug) == Err(outcome.error)
      ensures running && outcome.Pass? ==> |paces| == |durations|
      ensures !running ==> frames == 0 && outcome == Pass
    {
      frames, paces, outcome := 0, [], Pass;
      var i := 0;
      while running && i < |durations|
        invariant 0 <= i <= |durations| && i == |paces| == frames
        invariant forall j :: 0 <= j < i ==> Paced(durations[j], frameWait, debug) == Ok(paces[j])
        invariant !running ==> i == 0
      {
        frames := frames + 1;
        var r := Pace(durations[i], frameWait, debug);
        if r.Err? {
          outcome := Fail(r.error);
          return;
        }
        paces := paces + [r.value];
        i := i + 1;
      }
    }
  }
}
