/**
 * `FramerateCounter`: counts the frames of the current second and, each
 * time the accumulated tick count reaches the clock's frequency, publishes
 * the count as `frames_per_second`. `tick(delta)` takes the ticks elapsed
 * since the previous frame and returns a fresh counter.
 *
 * The clock's `FREQUENCY` is a parameter. The DirectWrite text format used
 * by `render` is carried along unchanged; it is a type parameter `F` here.
 * Wrap-around of the `u32` frame counts and of the `u64` tick sum is not
 * modelled.
 *
 * As written, the tick that completes a second is counted in neither
 * second, so a steady `n` frames per second is reported as `n - 1`.
 * `Tick` counts that frame in the second it completes.
 */
module Framerate {
  import opened PerfCounter

  datatype FramerateCounter<F> = FramerateCounter(
    framesThisSecond: nat,
    time: PerformanceCounter,
    framesPerSecond: nat,
    renderTextFormat: F)

  /** `FramerateCounter::new()`, with the text format not yet created (`none`). */
  function New<F>(none: F): (r: FramerateCounter<F>)
    ensures r.framesThisSecond == 0 && r.framesPerSecond == 0 && r.time == PerfCounter.New()
    ensures r.renderTextFormat == none
  {
    FramerateCounter(0, PerfCounter.Default(), 0, none)
  }

  /** The time within the current second is below the frequency. */
  predicate Valid<F>(c: FramerateCounter<F>, frequency: nat) {
    c.time.ticks < frequency
  }

  /** `tick(delta)` as written. A zero frequency divides by zero. */
  function TickAsWritten<F>(c: FramerateCounter<F>, delta: PerformanceCounter, frequency: nat): (r: FramerateCounter<F>)
    requires frequency != 0
    ensures Valid(r, frequency)
    ensures r.renderTextFormat == c.renderTextFormat
  {
    var now := Add(c.time, delta);
    var (framesThisSecond, framesPerSecond) :=
      if now.ticks >= frequency then (0, c.framesThisSecond)
      else (c.framesThisSecond + 1, c.framesPerSecond);
    FramerateCounter(framesThisSecond, PerformanceCounter(now.ticks % frequency), framesPerSecond, c.renderTextFormat)
  }

  /** `tick(delta)` with the frame that completes a second counted in that second. */
  function Tick<F>(c: FramerateCounter<F>, delta: PerformanceCounter, frequency: nat): (r: FramerateCounter<F>)
    requires frequency != 0
    ensures Valid(r, frequency)
    ensures r.renderTextFormat == c.renderTextFormat
  {
    var now := Add(c.time, delta);
    var (framesThisSecond, framesPerSecond) :=
      if now.ticks >= frequency then (0, c.framesThisSecond + 1)
      else (c.framesThisSecond + 1, c.framesPerSecond);
    FramerateCounter(framesThisSecond, PerformanceCounter(now.ticks % frequency), framesPerSecond, c.renderTextFormat)
  }

  /** `k` frames of `delta` ticks each, by the rule as written or by the corrected one. */
  function Run<F>(asWritten: bool, c: FramerateCounter<F>, delta: PerformanceCounter, frequency: nat, k: nat): FramerateCounter<F>
    requires frequency != 0
  {
    if k == 0 then c
    else
      var prev := Run(asWritten, c, delta, frequency, k - 1);
      if asWritten then TickAsWritten(prev, delta, frequency) else Tick(prev, delta, frequency)
  }

  // ---------------------------------------------------------------------
  // Properties

  /**
   * One tick as written: reaching the frequency publishes the old frame count
   * and restarts it at 0; otherwise the count goes up by one and the
   * published value stays. The time advances by `delta`, less one second
   * when a second is completed (for a `delta` below one second).
   */
  lemma TickAsWrittenCases<F>(c: FramerateCounter<F>, delta: PerformanceCounter, frequency: nat)
    requires frequency != 0 && Valid(c, frequency)
    ensures var r := TickAsWritten(c, delta, frequency);
            var sum := c.time.ticks + delta.ticks;
            (sum >= frequency ==> r.framesThisSecond == 0 && r.framesPerSecond == c.framesThisSecond)
            && (sum >= frequency && delta.ticks < frequency ==> r.time.ticks == sum - frequency)
            && (sum < frequency ==>
                  r.framesThisSecond == c.framesThisSecond + 1 && r.framesPerSecond == c.framesPerSecond
                  && r.time.ticks == sum)
  {
    var sum := c.time.ticks + delta.ticks;
    if sum < frequency {
      DivModUnique(sum, frequency, 0, sum);
    } else if delta.ticks < frequency {
      DivModUnique(sum, frequency, 1, sum - frequency);
    }
  }

  /** The corrected tick differs from the one as written only in the published count, by one, on a crossing. */
  lemma TickDiffersOnlyOnCrossing<F>(c: FramerateCounter<F>, delta: PerformanceCounter, frequency: nat)
    requires frequency != 0
    ensures var w := TickAsWritten(c, delta, frequency);
            var r := Tick(c, delta, frequency);
            r.framesThisSecond == w.framesThisSecond && r.time == w.time
            && (r.framesPerSecond == w.framesPerSecond <==> c.time.ticks + delta.ticks < frequency)
            && (c.time.ticks + delta.ticks >= frequency ==> r.framesPerSecond == w.framesPerSecond + 1)
  {
  }

  /**
   * Within a second, starting from time 0 and frame count 0, `k` frames of
   * `delta` ticks leave the published count alone and count `k` frames at
   * time `k * delta`, by either rule.
   */
  lemma {:induction false} RunWithinSecond<F>(asWritten: bool, c: FramerateCounter<F>, delta: PerformanceCounter, frequency: nat, k: nat, elapsed: nat)
    requires frequency != 0 && c.time.ticks == 0 && c.framesThisSecond == 0
    requires elapsed == k * delta.ticks && elapsed < frequency
    ensures Run(asWritten, c, delta, frequency, k)
         == FramerateCounter(k, PerformanceCounter(elapsed), c.framesPerSecond, c.renderTextFormat)
  {
    if k > 0 {
      var before := (k - 1) * delta.ticks;
      MulPredecessor(k, delta.ticks, before, elapsed);
      RunWithinSecond(asWritten, c, delta, frequency, k - 1, before);
      DivModUnique(elapsed, frequency, 0, elapsed);
    }
  }

  /**
   * With `frequency == n * delta`, the `n` frames of one second bring the
   * counter back to the start of a second, and publish `n - 1` as written, `n`
   * corrected.
   */
  lemma OneSecondOfFrames<F>(asWritten: bool, c: FramerateCounter<F>, delta: PerformanceCounter, frequency: nat, n: nat)
    requires n >= 1 && frequency != 0 && frequency == n * delta.ticks
    requires c.time.ticks == 0 && c.framesThisSecond == 0
    ensures var r := Run(asWritten, c, delta, frequency, n);
            r.time.ticks == 0 && r.framesThisSecond == 0 && r.renderTextFormat == c.renderTextFormat
            && r.framesPerSecond == if asWritten then n - 1 else n
  {
    var before := (n - 1) * delta.ticks;
    MulPredecessor(n, delta.ticks, before, frequency);
    assert before < frequency;
    RunWithinSecond(asWritten, c, delta, frequency, n - 1, before);
    DivModUnique(frequency, frequency, 1, 0);
  }

  /** `(k - 1) * d + d == k * d`. */
  lemma MulPredecessor(k: nat, d: nat, before: nat, product: nat)
    requires k >= 1 && before == (k - 1) * d && product == k * d
    ensures before + d == product
  {
  }

  /** Running `a` frames and then `b` more is running `a + b` frames. */
  lemma {:induction false} RunConcatenates<F>(asWritten: bool, c: FramerateCounter<F>, delta: PerformanceCounter, frequency: nat, a: nat, b: nat)
    requires frequency != 0
    ensures Run(asWritten, Run(asWritten, c, delta, frequency, a), delta, frequency, b)
         == Run(asWritten, c, delta, frequency, a + b)
  {
    if b > 0 {
      RunConcatenates(asWritten, c, delta, frequency, a, b - 1);
    }
  }

  /**
   * At a steady `n` frames per second, from `new()`, the count published at
   * the end of every second is `n - 1` as written and `n` corrected.
   */
  lemma {:induction false} SteadyFramerate<F>(asWritten: bool, none: F, delta: PerformanceCounter, frequency: nat, n: nat, seconds: nat)
    requires n >= 1 && frequency != 0 && frequency == n * delta.ticks && seconds >= 1
    ensures var r := Run(asWritten, New(none), delta, frequency, seconds * n);
            r.time.ticks == 0 && r.framesThisSecond == 0
            && r.framesPerSecond == if asWritten then n - 1 else n
  {
    if seconds == 1 {
      OneSecondOfFrames(asWritten, New(none), delta, frequency, n);
    } else {
      SteadyFramerate(asWritten, none, delta, frequency, n, seconds - 1);
      var before := Run(asWritten, New(none), delta, frequency, (seconds - 1) * n);
      OneSecondOfFrames(asWritten, before, delta, frequency, n);
      RunConcatenates(asWritten, New(none), delta, frequency, (seconds - 1) * n, n);
      assert (seconds - 1) * n + n == seconds * n;
    }
  }

  /** For example, 60 frames of one tick each in a 60-tick second are reported as 59. */
  lemma SixtyFramesReportedAsFiftyNine<F>(none: F)
    ensures Run(true, New(none), PerformanceCounter(1), 60, 60).framesPerSecond == 59
    ensures Run(false, New(none), PerformanceCounter(1), 60, 60).framesPerSecond == 60
  {
    OneSecondOfFrames(true, New(none), PerformanceCounter(1), 60, 60);
    OneSecondOfFrames(false, New(none), PerformanceCounter(1), 60, 60);
  }
}
