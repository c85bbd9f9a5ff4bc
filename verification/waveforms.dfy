/** The piecewise-linear periodic shapes, as functions of a phase already
    folded into [0, 1). Values are reals, an idealisation of double. Every
    division sits on a branch whose condition makes its divisor positive. */
module Waveforms {

  predicate IsPhase(x: real)
  {
    0.0 <= x < 1.0
  }

  /** +1 before the duty point p1, -1 from it on. */
  function SquareWave(phase: real, p1: real): (r: real)
    requires IsPhase(phase)
    ensures r == 1.0 || r == -1.0
    ensures r == 1.0 <==> phase < p1
  {
    if phase < p1 then 1.0 else -1.0
  }

  /** A ramp from -1 at phase 0 towards +1 at phase 1. */
  function SawtoothWave(phase: real): (r: real)
    requires IsPhase(phase)
    ensures -1.0 <= r < 1.0
    ensures phase == (r + 1.0) / 2.0
  {
    -1.0 + 2.0 * phase
  }

  /** Rises from -1 at phase 0 to +1 at phase p1, then falls back to -1 at
      phase 1. */
  function TriangleWave(phase: real, p1: real): (r: real)
    requires IsPhase(phase)
    ensures -1.0 <= r <= 1.0
  {
    if phase < p1 then
      SlopeBound(phase, p1);
      -1.0 + 2.0 * phase / p1                     // rising part
    else
      SlopeBound(phase - p1, 1.0 - p1);
      1.0 - 2.0 * (phase - p1) / (1.0 - p1)       // falling part
  }

  /** Rises from -1 to +1 over [0, p1), holds +1 over [p1, p2), falls to -1
      over [p2, p3), holds -1 from p3 on. */
  function TrapeziumWave(phase: real, p1: real, p2: real, p3: real): (r: real)
    requires IsPhase(phase)
    ensures -1.0 <= r <= 1.0
  {
    if phase < p1 then
      SlopeBound(phase, p1);
      -1.0 + 2.0 * phase / p1                     // rising part
    else if phase < p2 then
      1.0                                         // high part
    else if phase < p3 then
      SlopeBound(phase - p2, p3 - p2);
      1.0 - 2.0 * (phase - p2) / (p3 - p2)        // falling part
    else
      -1.0                                        // low part
  }

  /** The value at phase 0 of each shape: the square wave starts high exactly
      when its duty point is positive, the sawtooth starts at -1, the
      triangle at -1 unless its peak is at phase 0 (then it only falls), and
      the trapezium at -1 when it has a rising slope. */
  lemma ValuesAtPhaseZero(p1: real, p2: real, p3: real)
    requires 0.0 <= p1
    ensures SquareWave(0.0, p1) == (if p1 > 0.0 then 1.0 else -1.0)
    ensures SawtoothWave(0.0) == -1.0
    ensures TriangleWave(0.0, p1) == (if p1 > 0.0 then -1.0 else 1.0)
    ensures p1 > 0.0 ==> TrapeziumWave(0.0, p1, p2, p3) == -1.0
  {
  }

  /** The sawtooth is strictly increasing over the period. */
  lemma SawtoothIncreasing(a: real, b: real)
    requires IsPhase(a) && IsPhase(b) && a < b
    ensures SawtoothWave(a) < SawtoothWave(b)
  {
  }

  /** The triangle rises on [0, p1) and reaches +1 exactly at p1. */
  lemma {:induction false} TriangleRises(a: real, b: real, p1: real)
    requires IsPhase(a) && IsPhase(b) && a <= b < p1
    ensures TriangleWave(a, p1) <= TriangleWave(b, p1)
  {
    DivMonotone(2.0 * a, 2.0 * b, p1);
  }

  /** The triangle falls from +1 at p1 over [p1, 1). */
  lemma {:induction false} TriangleFalls(a: real, b: real, p1: real)
    requires IsPhase(a) && IsPhase(b) && p1 <= a <= b
    ensures TriangleWave(a, p1) >= TriangleWave(b, p1)
    ensures a == p1 ==> TriangleWave(a, p1) == 1.0
  {
    DivMonotone(2.0 * (a - p1), 2.0 * (b - p1), 1.0 - p1);
  }

  /** The trapezium is +1 on its plateau and -1 from the end of its falling
      slope on, whatever the order of p1, p2 and p3. */
  lemma TrapeziumPlateaus(phase: real, p1: real, p2: real, p3: real)
    requires IsPhase(phase)
    ensures p1 <= phase < p2 ==> TrapeziumWave(phase, p1, p2, p3) == 1.0
    ensures p1 <= phase && p2 <= phase && p3 <= phase ==> TrapeziumWave(phase, p1, p2, p3) == -1.0
  {
  }

  /** The trapezium rises on [0, p1) and falls on [p2, p3) once past p1. */
  lemma {:induction false} TrapeziumSlopes(a: real, b: real, p1: real, p2: real, p3: real)
    requires IsPhase(a) && IsPhase(b) && a <= b
    ensures b < p1 ==> TrapeziumWave(a, p1, p2, p3) <= TrapeziumWave(b, p1, p2, p3)
    ensures p1 <= a && p2 <= a && b < p3 ==>
      TrapeziumWave(a, p1, p2, p3) >= TrapeziumWave(b, p1, p2, p3)
  {
    if b < p1 {
      DivMonotone(2.0 * a, 2.0 * b, p1);
    }
    if p1 <= a && p2 <= a && b < p3 {
      DivMonotone(2.0 * (a - p2), 2.0 * (b - p2), p3 - p2);
    }
  }

  /** A slope of height 2 over run d, taken at x in [0, d), stays in [0, 2). */
  lemma SlopeBound(x: real, d: real)
    requires 0.0 <= x < d
    ensures 0.0 <= 2.0 * x / d < 2.0
  {
    var q := 2.0 * x / d;
    assert q * d == 2.0 * x;
  }

  lemma DivMonotone(a: real, b: real, d: real)
    requires a <= b && d > 0.0
    ensures a / d <= b / d
  {
    assert b / d - a / d == (b - a) / d;
  }

  /** A 1 Hz square wave with a 50% duty cycle, sampled at 4 Hz (phases 0,
      0.25, 0.5 and 0.75), gives +1, +1, -1, -1 over one period. */
  lemma SquareOnePeriod()
    ensures SquareWave(0.0, 0.5) == 1.0 && SquareWave(0.25, 0.5) == 1.0
    ensures SquareWave(0.5, 0.5) == -1.0 && SquareWave(0.75, 0.5) == -1.0
  {
  }
}
