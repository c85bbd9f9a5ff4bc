/** The Karplus-Strong plucked string: a circular delay line whose output
    goes through a DC-blocking high pass, and whose feedback goes through a
    one-pole low pass and a fractional-delay all pass back into the slot it
    came from. The coefficients c0..c4 and the excitation are given; their
    derivation is not part of this model. */
module Pluck {
  import opened Arith
  import opened SynthTypes

  /** The source's range_limit(x, -1, 1). */
  function Clamp(x: real): (r: real)
    ensures InUnit(r)
    ensures InUnit(x) ==> r == x
    ensures x < -1.0 ==> r == -1.0
    ensures x > 1.0 ==> r == 1.0
  {
    if x <= -1.0 then -1.0 else if x >= 1.0 then 1.0 else x
  }

  /** The next read position of the delay line: one on, wrapping to 0 at the
      end of the buffer. */
  function NextPos(pos: nat, len: nat): (r: nat)
    requires pos < len
    ensures r < len
    ensures r == (pos + 1) % len
  {
    if pos + 1 == len then 0 else pos + 1
  }

  /** The position after n steps. */
  function PosAfter(pos: nat, n: nat, len: nat): (r: nat)
    requires pos < len
    ensures r < len
  {
    if n == 0 then pos else NextPos(PosAfter(pos, n - 1, len), len)
  }

  /** n steps advance the position by n modulo the buffer length. */
  lemma {:induction false} PosAfterMod(pos: nat, n: nat, len: nat)
    requires pos < len
    ensures PosAfter(pos, n, len) == (pos + n) % len
  {
    if n > 0 {
      PosAfterMod(pos, n - 1, len);
      ModSucc(pos + n - 1, len);
    }
  }

  lemma ModSucc(a: nat, len: nat)
    requires len > 0
    ensures ((a % len) + 1) % len == (a + 1) % len
  {
    var q, r := a / len, a % len;
    if r + 1 < len {
      DivModUnique(a + 1, len, q, r + 1);
      DivModUnique(r + 1, len, 0, r + 1);
    } else {
      DivModUnique(a + 1, len, q + 1, 0);
      DivModUnique(r + 1, len, 1, 0);
    }
  }

  /** The delay line is a ring: a slot written now is not visited again for
      exactly len steps, and is read back on the len-th. */
  lemma {:induction false} DelayLineRing(pos: nat, len: nat, j: nat)
    requires pos < len && 0 < j <= len
    ensures PosAfter(pos, j, len) == pos <==> j == len
  {
    PosAfterMod(pos, j, len);
    if pos + j < len {
      DivModUnique(pos + j, len, 0, pos + j);
    } else {
      DivModUnique(pos + j, len, 1, pos + j - len);
    }
  }

  /** DC block: the high pass of the slot value x. */
  function HighPass(x: real, hpLastIn: real, hpLastOut: real, c2: real, c3: real): (r: real)
    // a constant input is blocked: only the decaying memory remains
    ensures x == hpLastIn ==> r == hpLastOut * c2
  {
    (x - hpLastIn) * c3 + hpLastOut * c2
  }

  /** The one-pole low pass of the slot value x. */
  function LowPass(x: real, lpLastOut: real, c0: real, c1: real): (r: real)
    // before the decay factor, c1 = 1 - c0: a steady value passes unchanged
    ensures c0 + c1 == 1.0 && lpLastOut == x ==> r == x
  {
    x * c1 + lpLastOut * c0
  }

  /** The all pass as the delay-line step writes it. */
  function AllPass(d: real, apLastOut: real, apLastIn: real, c4: real): (r: real)
    // with c4 = 0 (a whole sample of fractional delay) it only delays its input
    ensures c4 == 0.0 ==> r == apLastIn
  {
    (d - apLastOut) * c4 + apLastIn
  }

  /** The all pass as the graduation pass writes it: the same filter as the
      delay-line step's, so the delay line continues it without a seam. */
  function AllPassGraduation(d: real, apLastOut: real, apLastIn: real, c4: real): (r: real)
    ensures r == AllPass(d, apLastOut, apLastIn, c4)
  {
    d * c4 + apLastIn - apLastOut * c4
  }

  /** The low-pass and all-pass memories. */
  datatype FilterState = FilterState(lp: real, apOut: real, apIn: real)

  /** Feeding one value through the low pass and the all pass. */
  function FeedOne(x: real, s: FilterState, c0: real, c1: real, c4: real): FilterState
  {
    var d := LowPass(x, s.lp, c0, c1);
    FilterState(d, AllPassGraduation(d, s.apOut, s.apIn, c4), d)
  }

  /** The memories after feeding xs in order from s. */
  function Feed(xs: seq<real>, s: FilterState, c0: real, c1: real, c4: real): FilterState
  {
    if |xs| == 0 then s else FeedOne(xs[|xs| - 1], Feed(xs[..|xs| - 1], s, c0, c1, c4), c0, c1, c4)
  }

  /** The filters run as a stream: feeding xs and then ys is feeding xs + ys,
      so the memories a pass leaves are where the next pass resumes. */
  lemma {:induction false} FeedAppend(xs: seq<real>, ys: seq<real>, s: FilterState, c0: real, c1: real, c4: real)
    ensures Feed(xs + ys, s, c0, c1, c4) == Feed(ys, Feed(xs, s, c0, c1, c4), c0, c1, c4)
  {
    if |ys| > 0 {
      var zs := xs + ys;
      assert zs[..|zs| - 1] == xs + ys[..|ys| - 1];
      assert zs[|zs| - 1] == ys[|ys| - 1];
      FeedAppend(xs, ys[..|ys| - 1], s, c0, c1, c4);
    } else {
      assert xs + ys == xs;
    }
  }

  /** Graduation of slot j of a buffer of length len: a cross-fade from the
      excitation x at slot 0 to the filtered value a at the end. */
  function Blend(x: real, a: real, j: nat, len: nat): real
    requires len > 0
  {
    var t := j as real / len as real;
    x * (1.0 - t) + a * t
  }

  /** Within the buffer the cross-fade stays between its two ends. */
  lemma BlendWithin(x: real, a: real, j: nat, len: nat)
    requires len > 0 && j <= len
    ensures x <= a ==> x <= Blend(x, a, j, len) <= a
    ensures a <= x ==> a <= Blend(x, a, j, len) <= x
  {
    var t := j as real / len as real;
    assert t * len as real == j as real;
    assert 0.0 <= t <= 1.0;
    if x <= a {
      BlendBetween(x, a, t);
    } else {
      BlendBetween(a, x, t);
    }
  }

  /** A weighted mean with weights 1 - t and t lies between its two values. */
  lemma BlendBetween(lo: real, hi: real, t: real)
    requires 0.0 <= t <= 1.0 && lo <= hi
    ensures lo <= lo * (1.0 - t) + hi * t
    ensures lo * (1.0 - t) + hi * t <= hi
    ensures lo <= hi * (1.0 - t) + lo * t
    ensures hi * (1.0 - t) + lo * t <= hi
  {
    var d := hi - lo;
    MulBetween(d, t);
    MulBetween(d, 1.0 - t);
    assert lo * (1.0 - t) + hi * t == lo + d * t;
    assert hi * (1.0 - t) + lo * t == lo + d * (1.0 - t);
  }

  lemma MulBetween(w: real, t: real)
    requires 0.0 <= w && 0.0 <= t <= 1.0
    ensures 0.0 <= w * t <= w
  {
    assert w - w * t == w * (1.0 - t);
  }

  /** Slot k after the graduation pass over xs from memories s. */
  function Graduated(xs: seq<real>, s: FilterState, k: nat, c0: real, c1: real, c4: real): real
    requires k < |xs|
  {
    Blend(xs[k], Feed(xs[..k + 1], s, c0, c1, c4).apOut, k, |xs|)
  }

  /** The first slot keeps its excitation. */
  lemma BlendAtStart(x: real, a: real, len: nat)
    requires len > 0
    ensures Blend(x, a, 0, len) == x
  {
  }

  /** Where excitation and filtered value agree, graduation changes nothing. */
  lemma BlendFixed(x: real, j: nat, len: nat)
    requires len > 0
    ensures Blend(x, x, j, len) == x
  {
    var t := j as real / len as real;
    assert x * (1.0 - t) + x * t == x * ((1.0 - t) + t);
  }

  /** Normalisation of one value from [lo, hi] onto [-1, 1]. */
  function Normalised(x: real, lo: real, hi: real): real
    requires lo < hi
  {
    (2.0 * x - hi - lo) / (hi - lo)
  }

  /** Normalisation maps [lo, hi] into [-1, 1], hi onto 1 and lo onto -1. */
  lemma NormalisedBound(x: real, lo: real, hi: real)
    requires lo < hi
    ensures lo <= x <= hi ==> InUnit(Normalised(x, lo, hi))
    ensures x == hi ==> Normalised(x, lo, hi) == 1.0
    ensures x == lo ==> Normalised(x, lo, hi) == -1.0
  {
    var w := hi - lo;
    var q := (2.0 * x - hi - lo) / w;
    assert q * w == 2.0 * x - hi - lo;
    if x == hi {
      assert 2.0 * x - hi - lo == w;
    }
    if x == lo {
      assert 2.0 * x - hi - lo == -w;
    }
  }

  /** Normalisation keeps the order of values and can be undone. */
  lemma NormalisedInvertible(x: real, lo: real, hi: real)
    requires lo < hi
    ensures (Normalised(x, lo, hi) * (hi - lo) + hi + lo) / 2.0 == x
  {
    var w := hi - lo;
    var q := (2.0 * x - hi - lo) / w;
    assert q * w == 2.0 * x - hi - lo;
  }

  lemma NormalisedMonotone(x: real, y: real, lo: real, hi: real)
    requires lo < hi && x <= y
    ensures Normalised(x, lo, hi) <= Normalised(y, lo, hi)
  {
    var w := hi - lo;
    assert Normalised(y, lo, hi) - Normalised(x, lo, hi) == (2.0 * (y - x)) / w;
  }

  /** One plucked string: the delay line, its read position, the filter
      memories and the coefficients. */
  class PluckString {
    const buffer: array<real>
    var pos: nat
    var lpLastOut: real
    var hpLastOut: real
    var hpLastIn: real
    var apLastOut: real
    var apLastIn: real
    const c0: real
    const c1: real
    const c2: real
    const c3: real
    const c4: real

    ghost predicate Valid()
      reads this
    {
      buffer.Length > 0 && pos < buffer.Length
    }

    ghost function Memories(): FilterState
      reads this
    {
      FilterState(lpLastOut, apLastOut, apLastIn)
    }

    /** A string holding the excitation, read from slot 0, with every
        filter memory zero. */
    constructor (excitation: seq<real>, c0: real, c1: real, c2: real, c3: real, c4: real)
      requires |excitation| > 0
      ensures Valid() && fresh(buffer)
      ensures buffer[..] == excitation && pos == 0
      ensures lpLastOut == 0.0 && hpLastOut == 0.0 && hpLastIn == 0.0
      ensures apLastOut == 0.0 && apLastIn == 0.0
      ensures this.c0 == c0 && this.c1 == c1 && this.c2 == c2 && this.c3 == c3 && this.c4 == c4
    {
      buffer := new real[|excitation|](i requires 0 <= i < |excitation| => excitation[i]);
      pos := 0;
      lpLastOut, hpLastOut, hpLastIn, apLastOut, apLastIn := 0.0, 0.0, 0.0, 0.0, 0.0;
      this.c0, this.c1, this.c2, this.c3, this.c4 := c0, c1, c2, c3, c4;
    }

    /** In-delay filter graduation: every slot j becomes the cross-fade of
        its excitation and the all-pass output after feeding slots 0..j,
        and the filter memories end as after feeding the whole buffer.
        Returns the smallest and largest values, both seeded at 0. */
    method Graduate() returns (lo: real, hi: real)
      requires Valid()
      modifies buffer, this`lpLastOut, this`apLastOut, this`apLastIn
      ensures Valid()
      ensures forall j :: 0 <= j < buffer.Length ==>
        buffer[j] == Graduated(old(buffer[..]), old(Memories()), j, c0, c1, c4)
      ensures Memories() == Feed(old(buffer[..]), old(Memories()), c0, c1, c4)
      ensures buffer[0] == old(buffer[0])
      ensures lo <= 0.0 <= hi
      ensures forall j :: 0 <= j < buffer.Length ==> lo <= buffer[j] <= hi
      ensures lo == 0.0 || exists j :: 0 <= j < buffer.Length && buffer[j] == lo
      ensures hi == 0.0 || exists j :: 0 <= j < buffer.Length && buffer[j] == hi
    {
      ghost var orig := buffer[..];
      ghost var s0 := Memories();
      var len := buffer.Length;
      lo, hi := 0.0, 0.0;
      var j := 0;
      while j < len
        invariant 0 <= j <= len
        invariant forall k :: j <= k < len ==> buffer[k] == orig[k]
        invariant forall k :: 0 <= k < j ==> buffer[k] == Graduated(orig, s0, k, c0, c1, c4)
        invariant Memories() == Feed(orig[..j], s0, c0, c1, c4)
        invariant lo <= 0.0 <= hi
        invariant forall k :: 0 <= k < j ==> lo <= buffer[k] <= hi
        invariant lo == 0.0 || exists k :: 0 <= k < j && buffer[k] == lo
        invariant hi == 0.0 || exists k :: 0 <= k < j && buffer[k] == hi
      {
        var v := GraduateSlot(j);
        assert Memories() == Feed(orig[..j + 1], s0, c0, c1, c4) by {
          assert orig[..j + 1][..j] == orig[..j];
        }
        assert v == Graduated(orig, s0, j, c0, c1, c4);
        if v < lo {
          lo := v;
        }
        if v > hi {
          hi := v;
        }
        j := j + 1;
      }
      assert orig[..len] == orig;
      BlendAtStart(orig[0], Feed(orig[..1], s0, c0, c1, c4).apOut, len);
      assert buffer[0] == Graduated(orig, s0, 0, c0, c1, c4);
    }

    /** One slot of the graduation pass: the slot's value goes through the
        low pass and the all pass, and the slot becomes the cross-fade of
        its old value and the all-pass output. */
    method GraduateSlot(j: nat) returns (v: real)
      requires Valid() && j < buffer.Length
      modifies buffer, this`lpLastOut, this`apLastOut, this`apLastIn
      ensures Valid()
      ensures Memories() == FeedOne(old(buffer[j]), old(Memories()), c0, c1, c4)
      ensures v == buffer[j] == Blend(old(buffer[j]), apLastOut, j, buffer.Length)
      ensures forall k :: 0 <= k < buffer.Length && k != j ==> buffer[k] == old(buffer[k])
    {
      var d := LowPass(buffer[j], lpLastOut, c0, c1);
      lpLastOut := d;
      apLastOut := AllPassGraduation(d, apLastOut, apLastIn, c4);
      apLastIn := d;
      v := Blend(buffer[j], apLastOut, j, buffer.Length);
      buffer[j] := v;
    }

    /** Maps every slot from [lo, hi] onto [-1, 1]. */
    method Normalise(lo: real, hi: real)
      requires Valid() && lo < hi
      modifies buffer
      ensures Valid()
      ensures forall j :: 0 <= j < buffer.Length ==> buffer[j] == Normalised(old(buffer[j]), lo, hi)
      ensures (forall j :: 0 <= j < buffer.Length ==> lo <= old(buffer[j]) <= hi) ==>
        forall j :: 0 <= j < buffer.Length ==> InUnit(buffer[j])
    {
      var j := 0;
      while j < buffer.Length
        invariant 0 <= j <= buffer.Length
        invariant forall k :: 0 <= k < j ==> buffer[k] == Normalised(old(buffer[k]), lo, hi)
        invariant forall k :: j <= k < buffer.Length ==> buffer[k] == old(buffer[k])
      {
        buffer[j] := (2.0 * buffer[j] - hi - lo) / (hi - lo);
        j := j + 1;
      }
      forall k | 0 <= k < buffer.Length
        ensures lo <= old(buffer[k]) <= hi ==> InUnit(buffer[k])
      {
        NormalisedBound(old(buffer[k]), lo, hi);
      }
    }

    /** The buffer as start-up leaves it: graduation, then normalisation
        from the smallest and largest values, both seeded at 0. Every slot
        ends in [-1, 1]; the value 1 is reached when some graduated slot was
        positive and -1 when some was negative. When the graduated buffer is
        all zero it stays so (the source divides 0 by 0 there). */
    method Prepare() returns (lo: real, hi: real)
      requires Valid()
      modifies buffer, this`lpLastOut, this`apLastOut, this`apLastIn
      ensures Valid()
      ensures Memories() == Feed(old(buffer[..]), old(Memories()), c0, c1, c4)
      ensures lo <= 0.0 <= hi
      ensures lo == hi ==> forall j :: 0 <= j < buffer.Length ==>
        buffer[j] == Graduated(old(buffer[..]), old(Memories()), j, c0, c1, c4) == 0.0
      ensures lo < hi ==> forall j :: 0 <= j < buffer.Length ==>
        buffer[j] == Normalised(Graduated(old(buffer[..]), old(Memories()), j, c0, c1, c4), lo, hi)
      ensures forall j :: 0 <= j < buffer.Length ==> InUnit(buffer[j])
      ensures hi > 0.0 ==> exists j :: 0 <= j < buffer.Length && buffer[j] == 1.0
      ensures lo < 0.0 ==> exists j :: 0 <= j < buffer.Length && buffer[j] == -1.0
    {
      ghost var orig := buffer[..];
      ghost var s0 := Memories();
      lo, hi := Graduate();
      ghost var graduated := buffer[..];
      if lo < hi {
        Normalise(lo, hi);
        if hi > 0.0 {
          ghost var k :| 0 <= k < buffer.Length && graduated[k] == hi;
          NormalisedBound(graduated[k], lo, hi);
        }
        if lo < 0.0 {
          ghost var k :| 0 <= k < buffer.Length && graduated[k] == lo;
          NormalisedBound(graduated[k], lo, hi);
        }
      }
    }

    /** One output sample: the slot at pos goes through the high pass (the
        output, clamped to [-1, 1]) and through the low and all pass back
        into the same slot; pos moves on by one around the ring. */
    method Step() returns (out: real)
      requires Valid()
      modifies buffer, this`pos, this`lpLastOut, this`hpLastOut, this`hpLastIn, this`apLastOut, this`apLastIn
      ensures Valid()
      ensures pos == NextPos(old(pos), buffer.Length)
      ensures hpLastIn == old(buffer[pos])
      ensures hpLastOut == HighPass(old(buffer[pos]), old(hpLastIn), old(hpLastOut), c2, c3)
      ensures out == Clamp(hpLastOut) && InUnit(out)
      ensures lpLastOut == LowPass(old(buffer[pos]), old(lpLastOut), c0, c1)
      ensures apLastOut == AllPass(lpLastOut, old(apLastOut), old(apLastIn), c4)
      ensures apLastIn == lpLastOut
      ensures buffer[..] == old(buffer[..])[old(pos) := apLastOut]
    {
      var x := buffer[pos];
      hpLastOut := HighPass(x, hpLastIn, hpLastOut, c2, c3);
      hpLastIn := x;
      out := Clamp(hpLastOut);
      var d := LowPass(x, lpLastOut, c0, c1);
      lpLastOut := d;
      apLastOut := AllPass(d, apLastOut, apLastIn, c4);
      buffer[pos] := apLastOut;
      apLastIn := d;
      pos := NextPos(pos, buffer.Length);
    }
  }
}
