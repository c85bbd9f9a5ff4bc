/** Per-channel defaulting: the shape parameters a kind reads and nobody
    set (any negative value counts as unset) get their defaults, and each
    pink noise channel gets its number of generator rows. */
module Defaults {
  import opened SynthTypes
  import opened Waveforms
  import PinkNoiseGen

  /** p1, p2 and p3 together. */
  datatype Shape = Shape(p1: real, p2: real, p3: real)

  predicate AllSet(s: Shape)
  {
    s.p1 >= 0.0 && s.p2 >= 0.0 && s.p3 >= 0.0
  }

  /** A trapezium whose corners come in order within one period. */
  predicate Ordered(s: Shape)
  {
    0.0 <= s.p1 <= s.p2 <= s.p3 <= 1.0
  }

  /** The trapezium cascade exactly as the source writes it. In the
      symmetric fallback p2 is set to the length of each flat part,
      (1 - 2 p1) / 2, where it is the position at which the falling slope
      begins. */
  function TrapeziumDefaultsAsWritten(s: Shape): (r: Shape)
    ensures r.p1 == (if s.p1 < 0.0 then 0.1 else s.p1)
    ensures AllSet(r)
    ensures s.p1 >= 0.0 && s.p2 >= 0.0 ==> r.p2 == s.p2
    ensures AllSet(s) ==> r == s
    // nothing set: the full default (0.1, 0.5, 0.6)
    ensures s.p1 < 0.0 ==> r == Shape(0.1, 0.5, 0.6)
    // no symmetric shape for p1 > 0.5: the asymmetric triangle (p1, p1, 1)
    ensures s.p1 > 0.5 && s.p2 < 0.0 ==> r == Shape(s.p1, s.p1, 1.0)
    // only p3 unset: the slope falls to the end of the period
    ensures s.p1 >= 0.0 && s.p2 >= 0.0 && s.p3 < 0.0 ==> r == Shape(s.p1, s.p2, 1.0)
  {
    if s.p1 < 0.0 then Shape(0.1, 0.5, 0.6)
    else if s.p2 < 0.0 then
      if s.p1 <= 0.5 then
        var p2 := (1.0 - 2.0 * s.p1) / 2.0;
        Shape(s.p1, p2, p2 + s.p1)
      else Shape(s.p1, s.p1, 1.0)
    else if s.p3 < 0.0 then Shape(s.p1, s.p2, 1.0)
    else s
  }

  /** With a rising slope of 0.4 and no p2, the fallback puts the start of
      the falling slope at 0.1, before the top of the rising one: the wave
      jumps from 0.95 at phase 0.39 to -0.5 at phase 0.4. */
  lemma TrapeziumAsWrittenJumps()
    ensures TrapeziumDefaultsAsWritten(Shape(0.4, Unset, Unset)) == Shape(0.4, 0.1, 0.5)
    ensures TrapeziumWave(0.39, 0.4, 0.1, 0.5) == 0.95
    ensures TrapeziumWave(0.4, 0.4, 0.1, 0.5) == -0.5
  {
  }

  /** Even where the fallback keeps its corners in order it is not
      symmetric: with a slope of 0.1 the high part lasts 0.3 and the low
      part 0.5. */
  lemma TrapeziumAsWrittenAsymmetric()
    ensures TrapeziumDefaultsAsWritten(Shape(0.1, Unset, Unset)) == Shape(0.1, 0.4, 0.5)
  {
  }

  /** The trapezium cascade with the symmetric fallback putting the falling
      slope at the middle of the period, as the full default (0.1, 0.5,
      0.6) does. A set p1 is kept, a set p2 is kept when p1 is set, and
      every corner ends up set. */
  function TrapeziumDefaults(s: Shape): (r: Shape)
    ensures AllSet(r)
    ensures s.p1 >= 0.0 ==> r.p1 == s.p1
    ensures s.p1 >= 0.0 && s.p2 >= 0.0 ==> r.p2 == s.p2
    ensures AllSet(s) ==> r == s
    ensures s.p1 < 0.0 ==> r == Shape(0.1, 0.5, 0.6)
    ensures s.p1 > 0.5 && s.p2 < 0.0 ==> r == Shape(s.p1, s.p1, 1.0)
    ensures s.p1 >= 0.0 && s.p2 >= 0.0 && s.p3 < 0.0 ==> r == Shape(s.p1, s.p2, 1.0)
  {
    if s.p1 < 0.0 then Shape(0.1, 0.5, 0.6)
    else if s.p2 < 0.0 then
      if s.p1 <= 0.5 then Shape(s.p1, 0.5, 0.5 + s.p1)
      else Shape(s.p1, s.p1, 1.0)
    else if s.p3 < 0.0 then Shape(s.p1, s.p2, 1.0)
    else s
  }

  /** Whatever p1 in [0, 1] was given, filling p2 gives corners in order;
      for p1 at most 0.5 the shape is symmetric: the falling slope is as
      long as the rising one and the high part as long as the low part. */
  lemma TrapeziumDefaultsSymmetric(s: Shape)
    requires (0.0 <= s.p1 <= 1.0 && s.p2 < 0.0) || s.p1 < 0.0
    ensures Ordered(TrapeziumDefaults(s))
    ensures var r := TrapeziumDefaults(s);
      r.p1 <= 0.5 ==> r.p3 - r.p2 == r.p1 && r.p2 - r.p1 == 1.0 - r.p3
  {
  }

  /** With the corners in order and a falling slope of positive length,
      the wave reaches +1 at the top of its rising slope: no jump. */
  lemma TrapeziumPeakAtP1(s: Shape)
    requires Ordered(s) && s.p2 < s.p3 && s.p1 < 1.0
    ensures TrapeziumWave(s.p1, s.p1, s.p2, s.p3) == 1.0
  {
    if s.p2 <= s.p1 {
      assert s.p1 - s.p2 == 0.0;
    }
  }

  /** The row count the source asks for: 10 + 2c for channel c. */
  function PinkRowsAsWritten(c: nat): nat
  {
    10 + 2 * c
  }

  /** From channel 11 on, the row count exceeds the row array. */
  lemma PinkRowsAsWrittenOverflow(c: nat)
    ensures PinkRowsAsWritten(c) > PinkNoiseGen.MaxRandomRows <==> c >= 11
  {
  }

  /** The row count capped at the capacity of the row array: the source's
      count for the first eleven channels, the capacity from then on. */
  function PinkRows(c: nat): (r: nat)
    ensures 10 <= r <= PinkNoiseGen.MaxRandomRows
    ensures PinkRowsAsWritten(c) <= PinkNoiseGen.MaxRandomRows ==> r == PinkRowsAsWritten(c)
  {
    if PinkRowsAsWritten(c) <= PinkNoiseGen.MaxRandomRows then PinkRowsAsWritten(c)
    else PinkNoiseGen.MaxRandomRows
  }

  function ShapeOf(c: Params): Shape
  {
    Shape(c.p1, c.p2, c.p3)
  }

  function WithShape(c: Params, s: Shape): Params
  {
    c.(p1 := s.p1, p2 := s.p2, p3 := s.p3)
  }

  /** Fills the unset shape parameters of one channel, the trapezium's
      corners being given: square and triangle get p1 = 0.5, exp p1 = p2 =
      0.5, pluck p1 = 0.4 and, when p2 is unset, p2 = 0.2 together with
      p3 = 0.9. */
  function FillDefaults(c: Params, trapezium: Shape): Params
  {
    match c.kind
    case Square => if c.p1 < 0.0 then c.(p1 := 0.5) else c
    case Triangle => if c.p1 < 0.0 then c.(p1 := 0.5) else c
    case Trapezium => WithShape(c, trapezium)
    case Exp =>
      var c1 := if c.p1 < 0.0 then c.(p1 := 0.5) else c;
      if c1.p2 < 0.0 then c1.(p2 := 0.5) else c1
    case Pluck =>
      var c1 := if c.p1 < 0.0 then c.(p1 := 0.4) else c;
      if c1.p2 < 0.0 then c1.(p2 := 0.2, p3 := 0.9) else c1
    case _ => c
  }

  /** The source's defaulting, with the trapezium cascade as written. Only
      p1..p3 change, and every parameter the kind's shape reads is set. */
  function SetDefaultParametersAsWritten(c: Params): (r: Params)
    ensures r == WithShape(c, ShapeOf(r))
    ensures (c.kind.Square? || c.kind.Triangle? || c.kind.Exp? || c.kind.Pluck?) ==> r.p1 >= 0.0
    ensures (c.kind.Exp? || c.kind.Pluck?) ==> r.p2 >= 0.0
    ensures c.kind.Trapezium? ==> AllSet(ShapeOf(r))
    ensures (c.kind.Sine? || c.kind.Sawtooth? || c.kind.WhiteNoise? || c.kind.TpdfNoise?
      || c.kind.PinkNoise? || c.kind.BrownNoise?) ==> r == c
    // the values filled in: a 50% duty cycle or peak for square and
    // triangle, a peak at half the period and half amplitude for exp, and
    // 0.4, 0.2 and 0.9 for pluck
    ensures (c.kind.Square? || c.kind.Triangle?) ==> r.p1 == (if c.p1 < 0.0 then 0.5 else c.p1)
    ensures c.kind.Exp? ==>
      r.p1 == (if c.p1 < 0.0 then 0.5 else c.p1) && r.p2 == (if c.p2 < 0.0 then 0.5 else c.p2)
    ensures c.kind.Pluck? ==> r.p1 == (if c.p1 < 0.0 then 0.4 else c.p1)
    ensures c.kind.Pluck? && c.p2 < 0.0 ==> r.p2 == 0.2 && r.p3 == 0.9
    ensures c.kind.Trapezium? ==> ShapeOf(r) == TrapeziumDefaultsAsWritten(ShapeOf(c))
  {
    FillDefaults(c, TrapeziumDefaultsAsWritten(ShapeOf(c)))
  }

  /** The defaulting with the corrected symmetric trapezium fallback, the
      one the stream channels get. Only p1..p3 change, and every parameter
      the kind's shape reads is set. */
  function SetDefaultParameters(c: Params): (r: Params)
    ensures r == WithShape(c, ShapeOf(r))
    ensures (c.kind.Square? || c.kind.Triangle? || c.kind.Exp? || c.kind.Pluck?) ==> r.p1 >= 0.0
    ensures (c.kind.Exp? || c.kind.Pluck?) ==> r.p2 >= 0.0
    ensures c.kind.Trapezium? ==> AllSet(ShapeOf(r))
    ensures (c.kind.Sine? || c.kind.Sawtooth? || c.kind.WhiteNoise? || c.kind.TpdfNoise?
      || c.kind.PinkNoise? || c.kind.BrownNoise?) ==> r == c
    // the values filled in: a 50% duty cycle or peak for square and
    // triangle, a peak at half the period and half amplitude for exp, and
    // 0.4, 0.2 and 0.9 for pluck
    ensures (c.kind.Square? || c.kind.Triangle?) ==> r.p1 == (if c.p1 < 0.0 then 0.5 else c.p1)
    ensures c.kind.Exp? ==>
      r.p1 == (if c.p1 < 0.0 then 0.5 else c.p1) && r.p2 == (if c.p2 < 0.0 then 0.5 else c.p2)
    ensures c.kind.Pluck? ==> r.p1 == (if c.p1 < 0.0 then 0.4 else c.p1)
    ensures c.kind.Pluck? && c.p2 < 0.0 ==> r.p2 == 0.2 && r.p3 == 0.9
    ensures c.kind.Trapezium? ==> ShapeOf(r) == TrapeziumDefaults(ShapeOf(c))
  {
    FillDefaults(c, TrapeziumDefaults(ShapeOf(c)))
  }

  /** The two defaultings differ only where the symmetric trapezium fallback
      applies and p1 is not 0: a trapezium with p1 in (0, 0.5] and p2
      unset. */
  lemma DefaultsDifferOnlyInFallback(c: Params)
    ensures SetDefaultParametersAsWritten(c) != SetDefaultParameters(c) <==>
      c.kind.Trapezium? && 0.0 < c.p1 <= 0.5 && c.p2 < 0.0
  {
    if c.kind.Trapezium? && 0.0 <= c.p1 <= 0.5 && c.p2 < 0.0 {
      var w := SetDefaultParametersAsWritten(c);
      var v := SetDefaultParameters(c);
      assert w.p2 == (1.0 - 2.0 * c.p1) / 2.0 && v.p2 == 0.5;
    }
  }

  /** Square, triangle and exp only fill what is unset; pluck keeps a set
      p1, keeps p2 and p3 when p2 is set, and otherwise overwrites p3 with
      0.9 whatever it held. Both defaultings agree on these kinds. */
  lemma DefaultsKeepSetValues(c: Params)
    ensures var r := SetDefaultParametersAsWritten(c);
      (c.kind.Square? || c.kind.Triangle? || c.kind.Exp?) ==>
        (c.p1 >= 0.0 ==> r.p1 == c.p1) && (c.p2 >= 0.0 ==> r.p2 == c.p2) && r.p3 == c.p3
    ensures var r := SetDefaultParametersAsWritten(c);
      c.kind.Pluck? ==>
        (c.p1 >= 0.0 ==> r.p1 == c.p1)
        && (c.p2 >= 0.0 ==> r.p2 == c.p2 && r.p3 == c.p3)
        && (c.p2 < 0.0 ==> r.p2 == 0.2 && r.p3 == 0.9)
    ensures !c.kind.Trapezium? ==> SetDefaultParameters(c) == SetDefaultParametersAsWritten(c)
  {
  }

  /** Defaulting twice is defaulting once, for both defaultings. */
  lemma DefaultsIdempotent(c: Params)
    ensures SetDefaultParametersAsWritten(SetDefaultParametersAsWritten(c)) == SetDefaultParametersAsWritten(c)
    ensures SetDefaultParameters(SetDefaultParameters(c)) == SetDefaultParameters(c)
  {
  }

  /** Every default is a fraction in [0, 1], so a channel whose options are
      in range stays in range under both defaultings. */
  lemma DefaultsKeepRanges(c: Params)
    requires InRange(c)
    ensures InRange(SetDefaultParametersAsWritten(c))
    ensures InRange(SetDefaultParameters(c))
  {
  }
}
