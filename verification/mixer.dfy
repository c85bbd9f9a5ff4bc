/** The last steps of every sample: the DC offset, the combine policy that
    meets the input sample, the headroom gain and the rounding to a 32-bit
    sample. Values are reals, an idealisation of double. */
module Mixer {
  import opened SynthTypes

  /** Full scale of a 32-bit signed sample. */
  const SampleMax: int := 0x7FFF_FFFF
  const SampleMin: int := -0x8000_0000

  predicate IsSample(x: int)
  {
    SampleMin <= x <= SampleMax
  }

  function Abs(x: real): real
  {
    if x < 0.0 then -x else x
  }

  /** The room left around the offset: 1 - |offset|. */
  function Headroom(offset: real): (k: real)
    ensures InUnit(offset) ==> 0.0 <= k <= 1.0 - offset && k <= 1.0 + offset
    ensures k == 1.0 <==> offset == 0.0
  {
    1.0 - Abs(offset)
  }

  /** Shifts the signal by offset and shrinks it by 1 - |offset|. */
  function ApplyOffset(s: real, offset: real): real
  {
    s * Headroom(offset) + offset
  }

  /** A zero offset changes nothing, silence becomes the offset, and the
      full swing on the side of the offset still reaches the bound. */
  lemma OffsetEnds(s: real, offset: real)
    ensures offset == 0.0 ==> ApplyOffset(s, offset) == s
    ensures s == 0.0 ==> ApplyOffset(s, offset) == offset
    ensures 0.0 <= offset <= 1.0 && s == 1.0 ==> ApplyOffset(s, offset) == 1.0
    ensures -1.0 <= offset <= 0.0 && s == -1.0 ==> ApplyOffset(s, offset) == -1.0
  {
  }

  /** A signal in [-1, 1] shifted by an offset in [-1, 1] stays in [-1, 1]. */
  lemma OffsetInUnit(s: real, offset: real)
    requires InUnit(s) && InUnit(offset)
    ensures InUnit(ApplyOffset(s, offset))
  {
    var k := Headroom(offset);
    ScaleUnit(s, k);
    ShiftWithin(s * k, k, offset);
  }

  lemma ShiftWithin(p: real, k: real, offset: real)
    requires -k <= p <= k && k <= 1.0 - offset && k <= 1.0 + offset
    ensures InUnit(p + offset)
  {
  }

  lemma MulNonNeg(a: real, b: real)
    requires a >= 0.0 && b >= 0.0
    ensures a * b >= 0.0
  {
  }

  /** s * k lies in [-k, k] for s in [-1, 1] and k >= 0. */
  lemma ScaleUnit(s: real, k: real)
    requires InUnit(s) && k >= 0.0
    ensures -k <= s * k <= k
  {
    MulNonNeg(1.0 - s, k);
    MulNonNeg(1.0 + s, k);
    assert (1.0 - s) * k == k - s * k;
    assert (1.0 + s) * k == k + s * k;
  }

  /** Unless |offset| is 1 (a constant signal), the offset mapping is
      invertible: the generated value is recovered from the shifted one. */
  lemma OffsetInvertible(s: real, offset: real)
    requires Abs(offset) < 1.0
    ensures (ApplyOffset(s, offset) - offset) / Headroom(offset) == s
  {
    var k := Headroom(offset);
    assert ApplyOffset(s, offset) - offset == s * k;
    assert k > 0.0;
    CancelDiv(s * k, k, s);
  }

  lemma CancelDiv(p: real, k: real, s: real)
    requires k != 0.0 && p == s * k
    ensures p / k == s
  {
  }

  /** The offset mapping preserves the order of signal values. */
  lemma OffsetMonotone(a: real, b: real, offset: real)
    requires a <= b && InUnit(offset)
    ensures ApplyOffset(a, offset) <= ApplyOffset(b, offset)
  {
    var k := Headroom(offset);
    MulNonNeg(b - a, k);
    assert (b - a) * k == b * k - a * k;
  }

  /** The combine policies: create scales to full scale and ignores the
      input, mix averages with the input, amod scales the input by (s+1)/2,
      fmod multiplies the input by s. For s in [-1, 1] and a 32-bit input,
      all but fmod stay within the 32-bit range; fmod stays within |input|. */
  function Combine(mode: CombineMode, s: real, input: int): (r: real)
    ensures mode == Create ==> r == s * SampleMax as real
    ensures InUnit(s) && IsSample(input) && mode != Fmod ==>
      SampleMin as real <= r <= SampleMax as real
    ensures InUnit(s) && mode == Fmod ==> Abs(r) <= Abs(input as real)
  {
    match mode
    case Create =>
      ScaleWithin(s, SampleMax as real);
      s * SampleMax as real
    case Mix =>
      MixBound(s, input);
      (s * SampleMax as real + input as real) * 0.5
    case Amod =>
      AmodBound(s, input);
      (s + 1.0) * input as real * 0.5
    case Fmod =>
      ScaleWithin(s, input as real);
      s * input as real
  }

  lemma MixBound(s: real, input: int)
    ensures InUnit(s) && IsSample(input) ==>
      SampleMin as real <= (s * SampleMax as real + input as real) * 0.5 <= SampleMax as real
  {
    if InUnit(s) && IsSample(input) {
      ScaleWithin(s, SampleMax as real);
      HalfSumWithin(s * SampleMax as real, input as real);
    }
  }

  lemma HalfSumWithin(p: real, x: real)
    requires -(SampleMax as real) <= p <= SampleMax as real
    requires SampleMin as real <= x <= SampleMax as real
    ensures SampleMin as real <= (p + x) * 0.5 <= SampleMax as real
  {
  }

  lemma AmodBound(s: real, input: int)
    ensures InUnit(s) && IsSample(input) ==>
      SampleMin as real <= (s + 1.0) * input as real * 0.5 <= SampleMax as real
  {
    if InUnit(s) && IsSample(input) {
      var x := input as real;
      var h := (s + 1.0) * 0.5;
      assert (s + 1.0) * x * 0.5 == h * x;
      assert SampleMin as real <= x <= SampleMax as real;
      FractionWithin(h, x);
      assert x >= 0.0 ==> 0.0 <= h * x <= x;
      assert x < 0.0 ==> x <= h * x <= 0.0;
      assert SampleMin as real <= h * x <= SampleMax as real;
    }
  }

  /** h * x lies between 0 and x for h in [0, 1]. */
  lemma FractionWithin(h: real, x: real)
    requires 0.0 <= h <= 1.0
    ensures x >= 0.0 ==> 0.0 <= h * x <= x
    ensures x < 0.0 ==> x <= h * x <= 0.0
  {
    if x >= 0.0 {
      MulNonNeg(1.0 - h, x);
      MulNonNeg(h, x);
      assert (1.0 - h) * x == x - h * x;
    } else {
      MulNonNeg(1.0 - h, -x);
      MulNonNeg(h, -x);
      assert (1.0 - h) * -x == -x + h * x;
      NegMul(h, x);
    }
  }

  /** |s * x| <= |x| for s in [-1, 1]. */
  lemma ScaleWithin(s: real, x: real)
    ensures InUnit(s) ==> Abs(s * x) <= Abs(x)
    ensures InUnit(s) ==> -Abs(x) <= s * x <= Abs(x)
  {
    if InUnit(s) {
      if x < 0.0 {
        ScaleUnit(s, -x);
        NegMul(s, x);
      } else {
        ScaleUnit(s, x);
      }
    }
  }

  lemma NegMul(s: real, x: real)
    ensures s * x == -(s * -x)
  {
  }

  /** C's conversion of a double to an integer: truncation toward zero. */
  function Truncate(x: real): int
  {
    if x >= 0.0 then x.Floor else -((-x).Floor)
  }

  /** Truncation keeps the sign and drops less than 1, toward zero. */
  lemma TruncateTowardZero(x: real)
    ensures x >= 0.0 ==> 0 <= Truncate(x) && Truncate(x) as real <= x < Truncate(x) as real + 1.0
    ensures x < 0.0 ==> Truncate(x) <= 0 && Truncate(x) as real - 1.0 < x <= Truncate(x) as real
  {
  }

  /** The sign-dependent half bias followed by truncation: rounding to the
      nearest integer, halves away from zero. */
  function RoundToSample(x: real): (r: int)
    ensures x - 0.5 <= r as real <= x + 0.5
    ensures x >= 0.0 ==> r >= 0
    ensures x <= 0.0 ==> r <= 0
  {
    if x < 0.0 then Truncate(x - 0.5) else Truncate(x + 0.5)
  }

  /** Rounding commutes with negation. */
  lemma RoundSymmetric(x: real)
    ensures RoundToSample(-x) == -RoundToSample(x)
  {
  }

  /** The output sample exactly as the source computes it: offset, combine,
      headroom gain, rounding. */
  function OutputSampleAsWritten(mode: CombineMode, s: real, offset: real, input: int, gain: real): int
  {
    RoundToSample(Combine(mode, ApplyOffset(s, offset), input) * gain)
  }

  /** In create mode the input sample plays no part: two inputs give the
      same output sample. */
  lemma CreateIgnoresInput(s: real, offset: real, input1: int, input2: int, gain: real)
    ensures OutputSampleAsWritten(Create, s, offset, input1, gain)
      == OutputSampleAsWritten(Create, s, offset, input2, gain)
  {
    var v := ApplyOffset(s, offset);
    assert Combine(Create, v, input1) == Combine(Create, v, input2);
  }

  /** A real in the 32-bit range, rounded, is a 32-bit sample. */
  lemma RoundInRange(x: real)
    requires SampleMin as real <= x <= SampleMax as real
    ensures IsSample(RoundToSample(x))
  {
  }

  lemma GainWithin(x: real, gain: real)
    requires SampleMin as real <= x <= SampleMax as real && 0.0 <= gain <= 1.0
    ensures SampleMin as real <= x * gain <= SampleMax as real
  {
    if x >= 0.0 {
      MulNonNeg(x, 1.0 - gain);
      MulNonNeg(x, gain);
      assert x * (1.0 - gain) == x - x * gain;
    } else {
      MulNonNeg(-x, 1.0 - gain);
      MulNonNeg(-x, gain);
      assert -x * (1.0 - gain) == -x + x * gain;
    }
  }

  /** With a generated value and an offset in [-1, 1], a 32-bit input and a
      gain at most 1, create, mix and amod always give a 32-bit sample. */
  lemma {:induction false} OutputInRange(mode: CombineMode, s: real, offset: real, input: int, gain: real)
    requires InUnit(s) && InUnit(offset) && IsSample(input) && 0.0 <= gain <= 1.0
    requires mode != Fmod
    ensures IsSample(OutputSampleAsWritten(mode, s, offset, input, gain))
  {
    OffsetInUnit(s, offset);
    var c := Combine(mode, ApplyOffset(s, offset), input);
    GainWithin(c, gain);
    RoundInRange(c * gain);
  }

  /** fmod at unity gain (the gain stays 1 when headroom is disabled): a
      generated -1 times the most negative input gives 2^31 before rounding,
      one past the largest 32-bit sample, which the conversion to a 32-bit
      sample cannot represent. */
  lemma FmodOverflow()
    ensures OutputSampleAsWritten(Fmod, -1.0, 0.0, SampleMin, 1.0) == SampleMax + 1
  {
    assert ApplyOffset(-1.0, 0.0) == -1.0;
    assert Combine(Fmod, -1.0, SampleMin) == 0x8000_0000 as real;
    assert Truncate(0x8000_0000 as real + 0.5) == 0x8000_0000;
  }

  function Clip(x: int): (r: int)
    ensures IsSample(r)
    ensures IsSample(x) ==> r == x
  {
    if x > SampleMax then SampleMax else if x < SampleMin then SampleMin else x
  }

  /** The output sample with the conversion kept in range: identical to the
      source wherever the source's value is representable (by OutputInRange,
      for create, mix and amod always), and a 32-bit sample in every mode. */
  function OutputSample(mode: CombineMode, s: real, offset: real, input: int, gain: real): (r: int)
    ensures IsSample(r)
    ensures IsSample(OutputSampleAsWritten(mode, s, offset, input, gain)) ==>
      r == OutputSampleAsWritten(mode, s, offset, input, gain)
  {
    Clip(OutputSampleAsWritten(mode, s, offset, input, gain))
  }
}
