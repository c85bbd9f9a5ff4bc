/** The memoryless noises and brown noise. Random draws are supplied by the
    caller: each uniform draw is a real in [-1, 1], the range of the
    generator's scaled output (its definition is not part of this model). */
module Noise {
  import opened SynthTypes

  predicate AllInUnit(draws: seq<real>)
  {
    forall i :: 0 <= i < |draws| ==> InUnit(draws[i])
  }

  /** Triangular-pdf noise: the mean of two uniform draws. It lies between
      the two draws, hence in [-1, 1]. */
  function TpdfNoise(d1: real, d2: real): (r: real)
    ensures (d1 <= r <= d2) || (d2 <= r <= d1)
    ensures InUnit(d1) && InUnit(d2) ==> InUnit(r)
  {
    0.5 * (d1 + d2)
  }

  /** Swapping or negating both draws swaps or negates the noise: the
      distribution is symmetric about 0. */
  lemma TpdfSymmetric(d1: real, d2: real)
    ensures TpdfNoise(d1, d2) == TpdfNoise(d2, d1)
    ensures TpdfNoise(-d1, -d2) == -TpdfNoise(d1, d2)
  {
  }

  /** One candidate of the brown-noise walk: the last value plus a draw
      scaled down by 16. */
  function BrownCandidate(last: real, draw: real): (r: real)
    ensures draw >= 0.0 ==> r >= last
    ensures draw <= 0.0 ==> r <= last
  {
    last + draw * (1.0 / 16.0)
  }

  /** The brown-noise step: candidates are tried draw by draw until one lies
      in [-1, 1]; that one is the output. None when every supplied draw was
      rejected (the source would go on drawing). */
  method BrownStep(last: real, draws: seq<real>) returns (out: Option<real>, used: nat)
    ensures used <= |draws|
    ensures forall i :: 0 <= i < used - 1 ==> !InUnit(BrownCandidate(last, draws[i]))
    ensures out.Some? ==>
      used >= 1 && out.value == BrownCandidate(last, draws[used - 1]) && InUnit(out.value)
    ensures out.None? ==>
      used == |draws| && forall i :: 0 <= i < |draws| ==> !InUnit(BrownCandidate(last, draws[i]))
  {
    used := 0;
    out := None;
    while used < |draws|
      invariant used <= |draws|
      invariant forall i :: 0 <= i < used ==> !InUnit(BrownCandidate(last, draws[i]))
    {
      var candidate := BrownCandidate(last, draws[used]);
      used := used + 1;
      if InUnit(candidate) {
        out := Some(candidate);
        return;
      }
    }
  }

  /** An accepted step moves the walk by at most 1/16. */
  lemma BrownStepSize(last: real, draw: real)
    requires InUnit(draw)
    ensures -1.0 / 16.0 <= BrownCandidate(last, draw) - last <= 1.0 / 16.0
  {
  }

  /** From a value in [-1, 1], a draw that does not point away from zero is
      always accepted, so the walk can always make progress towards 0. */
  lemma BrownAcceptsTowardZero(last: real, draw: real)
    requires InUnit(last) && InUnit(draw)
    requires (last >= 0.0 && draw <= 0.0) || (last <= 0.0 && draw >= 0.0)
    ensures InUnit(BrownCandidate(last, draw))
  {
  }

  /** From a value in [-1, 1], the first supplied draw pointing towards zero
      (or a draw of 0) ends the search: the step never uses more draws than
      the position of the first such draw. */
  lemma {:induction false} BrownStopsAtTowardZero(last: real, draws: seq<real>, k: nat)
    requires InUnit(last) && AllInUnit(draws) && k < |draws|
    requires (last >= 0.0 && draws[k] <= 0.0) || (last <= 0.0 && draws[k] >= 0.0)
    ensures exists i :: 0 <= i <= k && InUnit(BrownCandidate(last, draws[i]))
  {
    BrownAcceptsTowardZero(last, draws[k]);
  }

  /** The walk's state: the last output, shared with nothing else. */
  class BrownNoise {
    var lastOut: real

    ghost predicate Valid()
      reads this
    {
      InUnit(lastOut)
    }

    constructor ()
      ensures lastOut == 0.0 && Valid()
    {
      lastOut := 0.0;
    }

    /** One sample: the draws are tried in order and the first candidate in
        [-1, 1] becomes both the output and the new state; used is the
        number of draws consumed. With every draw rejected the state is
        kept. */
    method Generate(draws: seq<real>) returns (out: Option<real>, used: nat)
      requires Valid()
      modifies this
      ensures Valid()
      ensures used <= |draws|
      ensures out.Some? ==> used >= 1 && out.value == BrownCandidate(old(lastOut), draws[used - 1])
      ensures forall i :: 0 <= i < used - 1 ==> !InUnit(BrownCandidate(old(lastOut), draws[i]))
      ensures out.Some? ==> lastOut == out.value
      ensures out.Some? ==> -1.0 / 16.0 <= out.value - old(lastOut) <= 1.0 / 16.0 || !AllInUnit(draws)
      ensures out.None? ==> lastOut == old(lastOut)
      ensures out.Some? <==> exists i :: 0 <= i < |draws| && InUnit(BrownCandidate(old(lastOut), draws[i]))
    {
      out, used := BrownStep(lastOut, draws);
      if out.Some? {
        if AllInUnit(draws) {
          BrownStepSize(lastOut, draws[used - 1]);
        }
        lastOut := out.value;
      }
    }
  }
}
