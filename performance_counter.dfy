/**
 * `PerformanceCounter`: a count of ticks of the high-resolution clock, with
 * addition, subtraction and the two remainders `seconds()` and
 * `milliseconds()`. The clock's `FREQUENCY` (ticks per second, set once by
 * `init()`) is a parameter of the operations that read it. Equality and
 * ordering are derived from the single field `ticks`.
 *
 * `ticks` is a `u64`; wrap-around of `+` is not modelled, and `-` requires
 * the right operand to be no larger, since a larger one underflows.
 */
module PerfCounter {

  datatype PerformanceCounter = PerformanceCounter(ticks: nat)

  /** `PerformanceCounter::new()`. */
  function New(): (r: PerformanceCounter)
    ensures r == Default()
  {
    PerformanceCounter(0)
  }

  /** The derived `Default`: `ticks` at `u64::default()`, which is 0. */
  function Default(): PerformanceCounter {
    PerformanceCounter(0)
  }

  /** `self + rhs`. */
  function Add(a: PerformanceCounter, b: PerformanceCounter): PerformanceCounter {
    PerformanceCounter(a.ticks + b.ticks)
  }

  /** `self - rhs`, which underflows unless `rhs.ticks <= self.ticks`. */
  function Sub(a: PerformanceCounter, b: PerformanceCounter): PerformanceCounter
    requires b.ticks <= a.ticks
  {
    PerformanceCounter(a.ticks - b.ticks)
  }

  /**
   * `seconds()`: `ticks % FREQUENCY`, the ticks since the last whole second.
   * `FREQUENCY == 0` (before `init()`) fails the debug assertion and divides by zero.
   */
  function Seconds(pc: PerformanceCounter, frequency: nat): nat
    requires frequency != 0
  {
    pc.ticks % frequency
  }

  /** `milliseconds()`: `ticks % (FREQUENCY * 1000)`. */
  function Milliseconds(pc: PerformanceCounter, frequency: nat): nat
    requires frequency != 0
  {
    pc.ticks % (frequency * 1000)
  }

  /** The derived `PartialOrd`/`Ord`: the order of `ticks`. */
  predicate Less(a: PerformanceCounter, b: PerformanceCounter) {
    a.ticks < b.ticks
  }

  predicate LessOrEqual(a: PerformanceCounter, b: PerformanceCounter) {
    a.ticks <= b.ticks
  }

  // ---------------------------------------------------------------------
  // Properties

  /** `new()` and `default()` are the neutral element of `+` and `-`. */
  lemma NewIsNeutral(a: PerformanceCounter)
    ensures Add(a, New()) == a && Add(New(), a) == a
    ensures Sub(a, New()) == a && Sub(a, a) == New()
  {
  }

  /** `+` is commutative and associative. */
  lemma AddIsCommutativeAndAssociative(a: PerformanceCounter, b: PerformanceCounter, c: PerformanceCounter)
    ensures Add(a, b) == Add(b, a)
    ensures Add(Add(a, b), c) == Add(a, Add(b, c))
  {
  }

  /** `-` undoes `+`, and adding back what was subtracted restores the counter. */
  lemma SubUndoesAdd(a: PerformanceCounter, b: PerformanceCounter)
    ensures Sub(Add(a, b), b) == a
    ensures b.ticks <= a.ticks ==> Add(Sub(a, b), b) == a
  {
  }

  /** `a - b` is defined exactly when `b <= a`, and then it is no later than `a`. */
  lemma SubOrder(a: PerformanceCounter, b: PerformanceCounter)
    requires LessOrEqual(b, a)
    ensures LessOrEqual(Sub(a, b), a)
    ensures Sub(a, b) == New() <==> a == b
  {
  }

  /** `seconds()` is below the frequency and completes `ticks` with the whole seconds. */
  lemma SecondsIsRemainder(pc: PerformanceCounter, frequency: nat)
    requires frequency != 0
    ensures Seconds(pc, frequency) < frequency
    ensures (pc.ticks / frequency) * frequency + Seconds(pc, frequency) == pc.ticks
  {
  }

  /** `milliseconds()` is below `FREQUENCY * 1000` and completes `ticks` likewise. */
  lemma MillisecondsIsRemainder(pc: PerformanceCounter, frequency: nat)
    requires frequency != 0
    ensures Milliseconds(pc, frequency) < frequency * 1000
    ensures (pc.ticks / (frequency * 1000)) * (frequency * 1000) + Milliseconds(pc, frequency) == pc.ticks
  {
  }

  /** Adding whole seconds does not change `seconds()`. */
  lemma SecondsIgnoresWholeSeconds(pc: PerformanceCounter, frequency: nat, n: nat)
    requires frequency != 0
    ensures Seconds(Add(pc, PerformanceCounter(n * frequency)), frequency) == Seconds(pc, frequency)
  {
    var q, r := pc.ticks / frequency, pc.ticks % frequency;
    assert pc.ticks + n * frequency == (q + n) * frequency + r;
    DivModUnique(pc.ticks + n * frequency, frequency, q + n, r);
  }

  /** The derived order is a total order determined by `ticks`, and `+` is monotone in it. */
  lemma OrderIsTotal(a: PerformanceCounter, b: PerformanceCounter, c: PerformanceCounter)
    ensures Less(a, b) || a == b || Less(b, a)
    ensures !(Less(a, b) && Less(b, a))
    ensures Less(a, b) ==> Less(Add(a, c), Add(b, c))
    ensures a == b <==> a.ticks == b.ticks
  {
  }

  /** Quotient and remainder are unique. */
  lemma DivModUnique(a: nat, d: nat, q: nat, r: nat)
    requires d != 0 && a == q * d + r && r < d
    ensures a / d == q && a % d == r
  {
    var q0, r0 := a / d, a % d;
    if q0 < q {
      assert q * d >= (q0 + 1) * d by {
        MulLeq(q0 + 1, q, d);
      }
    } else if q0 > q {
      assert q0 * d >= (q + 1) * d by {
        MulLeq(q + 1, q0, d);
      }
    }
  }

  lemma MulLeq(x: nat, y: nat, d: nat)
    requires x <= y
    ensures x * d <= y * d
  {
  }
}
