/**
 * `StepTimer`: the clock readings of the current and the previous frame.
 * `tick(f_update)` reads the clock, shifts the current reading into the last
 * one, calls `f_update` once with the new timer and returns it; `elapsed()`
 * is the difference of the two readings.
 *
 * The clock reading `PerformanceCounter::now()` is the parameter `now`, and
 * the calls `tick` makes to `f_update` are recorded in the order they happen.
 */
module Timer {
  import opened PerfCounter

  datatype StepTimer = StepTimer(currentTime: PerformanceCounter, lastTime: PerformanceCounter)

  /** The new timer `tick` returns, and the timers it has passed to `f_update`. */
  datatype TickResult = TickResult(timer: StepTimer, updates: seq<StepTimer>)

  /** `StepTimer::new()`: both readings at `PerformanceCounter::default()`. */
  function New(): (r: StepTimer)
    ensures r.currentTime == PerfCounter.New() && r.lastTime == PerfCounter.New()
  {
    StepTimer(PerfCounter.Default(), PerfCounter.Default())
  }

  /** `tick(f_update)` with the clock reading `now`. */
  function Tick(timer: StepTimer, now: PerformanceCounter): (r: TickResult)
    ensures r.timer.lastTime == timer.currentTime && r.timer.currentTime == now
    ensures r.updates == [r.timer]
  {
    var newTimer := StepTimer(now, timer.currentTime);
    TickResult(newTimer, [newTimer])
  }

  /** The readings are in order: `elapsed()` does not underflow. */
  predicate Forward(timer: StepTimer) {
    timer.lastTime.ticks <= timer.currentTime.ticks
  }

  /** `elapsed()`: `current_time - last_time`, which underflows for readings out of order. */
  function Elapsed(timer: StepTimer): PerformanceCounter
    requires Forward(timer)
  {
    Sub(timer.currentTime, timer.lastTime)
  }

  /** One `tick` per clock reading, feeding each new timer to the next tick. */
  function Ticks(timer: StepTimer, readings: seq<PerformanceCounter>): TickResult
    decreases |readings|
  {
    if |readings| == 0 then TickResult(timer, [])
    else
      var first := Tick(timer, readings[0]);
      var rest := Ticks(first.timer, readings[1..]);
      TickResult(rest.timer, first.updates + rest.updates)
  }

  /** Clock readings that never go back, starting at or after `start`. */
  predicate Monotone(start: nat, readings: seq<PerformanceCounter>) {
    (|readings| > 0 ==> start <= readings[0].ticks)
    && forall i :: 0 < i < |readings| ==> readings[i - 1].ticks <= readings[i].ticks
  }

  /** The sum of `elapsed()` over timers whose readings are in order. */
  function TotalElapsed(timers: seq<StepTimer>): nat
    requires forall i :: 0 <= i < |timers| ==> Forward(timers[i])
  {
    if |timers| == 0 then 0 else Elapsed(timers[0]).ticks + TotalElapsed(timers[1..])
  }

  /** The last reading, or `start` when there is none. */
  function LastReading(start: PerformanceCounter, readings: seq<PerformanceCounter>): PerformanceCounter {
    if |readings| == 0 then start else readings[|readings| - 1]
  }

  // ---------------------------------------------------------------------
  // Properties

  /** `new()` has elapsed nothing. */
  lemma NewHasElapsedNothing()
    ensures Forward(New()) && Elapsed(New()) == PerfCounter.New()
  {
  }

  /** After a tick at a reading no earlier than the current one, `elapsed()` is the time since that reading. */
  lemma TickElapsed(timer: StepTimer, now: PerformanceCounter)
    requires timer.currentTime.ticks <= now.ticks
    ensures Forward(Tick(timer, now).timer)
    ensures Add(Elapsed(Tick(timer, now).timer), timer.currentTime) == now
  {
  }

  /**
   * A run of ticks at readings that never go back calls `f_update` once per
   * reading, each time with a timer whose `elapsed()` is defined and whose
   * current time is that reading; the elapsed times add up to the time from
   * the start to the last reading, which the final timer holds.
   */
  lemma {:induction false} TicksTelescope(timer: StepTimer, readings: seq<PerformanceCounter>)
    requires Monotone(timer.currentTime.ticks, readings)
    ensures var r := Ticks(timer, readings);
            |r.updates| == |readings|
            && (forall i :: 0 <= i < |readings| ==> r.updates[i].currentTime == readings[i])
            && (forall i :: 0 <= i < |r.updates| ==> Forward(r.updates[i]))
            && r.timer.currentTime == LastReading(timer.currentTime, readings)
            && TotalElapsed(r.updates) + timer.currentTime.ticks == LastReading(timer.currentTime, readings).ticks
    decreases |readings|
  {
    if |readings| > 0 {
      var first := Tick(timer, readings[0]);
      assert Monotone(first.timer.currentTime.ticks, readings[1..]);
      TicksTelescope(first.timer, readings[1..]);
      var rest := Ticks(first.timer, readings[1..]);
      var all := first.updates + rest.updates;
      assert all[1..] == rest.updates;
      assert LastReading(first.timer.currentTime, readings[1..]) == LastReading(timer.currentTime, readings);
    }
  }
}
