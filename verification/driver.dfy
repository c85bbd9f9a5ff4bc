/** The effect's driver: the start-up copy of the configured channels onto
    the stream's channels, and the block loop over interleaved frames with
    its sample counter and end-of-stream logic. The value of one output
    sample is abstracted as a function of the frame number, the channel and
    the input sample. */
module Driver {
  import opened SynthTypes
  import opened Arith
  import opened Defaults
  import PinkNoiseGen

  function Min(a: nat, b: nat): nat
  {
    if a < b then a else b
  }

  /** Frames one block processes: len, cut short at the target count when a
      target is set and not yet reached. */
  function Frames(len: nat, toDo: nat, done: nat): (r: nat)
    ensures r <= len
  {
    if done < toDo then Min(len, toDo - done) else len
  }

  /** Whether a block ends the stream: the counter reaches a target it had
      not reached before. */
  predicate EndsStream(len: nat, toDo: nat, done: nat)
  {
    done < toDo && toDo - done <= len
  }

  /** A block never carries the counter past the target, and ends the stream
      exactly when it brings the counter onto the target. */
  lemma FramesMeetTarget(len: nat, toDo: nat, done: nat)
    requires done < toDo
    ensures done + Frames(len, toDo, done) <= toDo
    ensures EndsStream(len, toDo, done) <==> done + Frames(len, toDo, done) == toDo
  {
  }

  /** Without a target (length 0) the stream never ends and every block is
      processed whole. */
  lemma UnboundedNeverEnds(len: nat, done: nat)
    ensures !EndsStream(len, 0, done)
    ensures Frames(len, 0, done) == len
  {
  }

  function SumNat(s: seq<nat>): nat
  {
    if |s| == 0 then 0 else s[0] + SumNat(s[1..])
  }

  /** A sequence of blocks of the given lengths, stopping after the block
      that ends the stream: the final count and whether the stream ended. */
  function Run(lens: seq<nat>, toDo: nat, done: nat): (nat, bool)
  {
    if |lens| == 0 then (done, false)
    else if EndsStream(lens[0], toDo, done) then (done + Frames(lens[0], toDo, done), true)
    else Run(lens[1..], toDo, done + Frames(lens[0], toDo, done))
  }

  /** A stream with a target ends as soon as the blocks offered hold enough
      frames, and then exactly at the target; until then every frame
      offered is produced. */
  lemma {:induction false} RunReachesTarget(lens: seq<nat>, toDo: nat, done: nat)
    requires done < toDo
    ensures Run(lens, toDo, done).1 <==> SumNat(lens) >= toDo - done
    ensures Run(lens, toDo, done).1 ==> Run(lens, toDo, done).0 == toDo
    ensures !Run(lens, toDo, done).1 ==> Run(lens, toDo, done).0 == done + SumNat(lens)
  {
    if |lens| > 0 && !EndsStream(lens[0], toDo, done) {
      RunReachesTarget(lens[1..], toDo, done + Frames(lens[0], toDo, done));
    }
  }

  /** The stream state the block loop keeps. */
  class Synth {
    var samplesDone: nat
    const samplesToDo: nat
    const numChannels: nat

    ghost predicate Valid()
      reads this
    {
      numChannels > 0
    }

    /** The counter starts at 0; a target of 0 means no length was given. */
    constructor (samplesToDo: nat, numChannels: nat)
      requires numChannels > 0
      ensures Valid() && samplesDone == 0
      ensures this.samplesToDo == samplesToDo && this.numChannels == numChannels
    {
      this.samplesToDo := samplesToDo;
      this.numChannels := numChannels;
      samplesDone := 0;
    }

    /** One block: as many whole frames as both buffers hold, cut short at
        the target. Output sample i is the sample of frame samplesDone +
        i / channels on channel i % channels with input sample i. Returns
        whether the stream ended and the number of samples consumed and
        produced. */
    method Flow(ibuf: seq<int>, obuf: array<int>, isamp: nat, osamp: nat, gen: (nat, nat, int) -> int)
      returns (eof: bool, count: nat)
      requires Valid() && isamp <= |ibuf| && osamp <= obuf.Length
      modifies this`samplesDone, obuf
      ensures Valid()
      ensures var len := Min(isamp, osamp) / numChannels;
        var frames := Frames(len, samplesToDo, old(samplesDone));
        samplesDone == old(samplesDone) + frames
        && count == frames * numChannels
        && eof == EndsStream(len, samplesToDo, old(samplesDone))
      ensures count <= isamp && count <= osamp
      ensures forall i: nat :: i < count ==>
        obuf[i] == gen(old(samplesDone) + FrameOf(i, numChannels), ChannelOf(i, numChannels), ibuf[i])
      ensures forall i :: count <= i < obuf.Length ==> obuf[i] == old(obuf[i])
    {
      var n := numChannels;
      var len := Min(isamp, osamp) / n;
      LenFits(Min(isamp, osamp), n);
      assert Span(len, n) <= isamp && Span(len, n) <= osamp;
      var start := samplesDone;
      var done := 0;
      var k := 0;
      eof := false;
      while done < len && !eof
        invariant done <= len && k == Span(done, n) && k <= Span(len, n)
        invariant samplesDone == start + done
        invariant start < samplesToDo ==> start + done <= samplesToDo
        invariant eof <==> start < samplesToDo && start + done == samplesToDo
        invariant forall i: nat :: i < k ==> obuf[i] == gen(start + FrameOf(i, n), ChannelOf(i, n), ibuf[i])
        invariant forall i :: k <= i < obuf.Length ==> obuf[i] == old(obuf[i])
      {
        NextFrameFits(done, len, n);
        WriteFrame(ibuf, obuf, k, n, start, done, gen);
        k := k + n;
        samplesDone := samplesDone + 1;
        done := done + 1;
        if samplesDone == samplesToDo {
          eof := true;
        }
      }
      FlowExit(done, len, start, samplesToDo, eof);
      count := k;
      assert count == done * n;
    }
  }

  /** The frame and the channel of interleaved sample i: i / n and i % n. */
  function FrameOf(i: nat, n: nat): nat
    requires n > 0
  {
    i / n
  }

  function ChannelOf(i: nat, n: nat): nat
    requires n > 0
  {
    i % n
  }

  /** Where the block loop stops: after the frames the block allows, having
      ended the stream exactly when it met the target. */
  lemma FlowExit(done: nat, len: nat, start: nat, toDo: nat, eof: bool)
    requires done <= len && (start < toDo ==> start + done <= toDo)
    requires eof <==> start < toDo && start + done == toDo
    requires !(done < len && !eof)
    ensures done == Frames(len, toDo, start) && eof == EndsStream(len, toDo, start)
  {
  }

  /** One frame: the n samples from k = done * n on are the samples of
      frame start + done, channel by channel, each with its input sample. */
  method WriteFrame(ibuf: seq<int>, obuf: array<int>, k: nat, n: nat, start: nat, done: nat, gen: (nat, nat, int) -> int)
    requires n > 0 && k == Span(done, n) && k + n <= obuf.Length && k + n <= |ibuf|
    modifies obuf
    ensures forall i: nat :: k <= i < k + n ==>
      obuf[i] == gen(start + FrameOf(i, n), ChannelOf(i, n), ibuf[i])
    ensures forall i :: 0 <= i < obuf.Length && !(k <= i < k + n) ==> obuf[i] == old(obuf[i])
  {
    var c := 0;
    while c < n
      invariant c <= n
      invariant forall i: nat :: k <= i < k + c ==>
        obuf[i] == gen(start + FrameOf(i, n), ChannelOf(i, n), ibuf[i])
      invariant forall i :: 0 <= i < obuf.Length && !(k <= i < k + c) ==> obuf[i] == old(obuf[i])
    {
      DivModUnique(k + c, n, done, c);
      obuf[k + c] := gen(start + done, c, ibuf[k + c]);
      c := c + 1;
    }
  }

  /** The number of samples in the given number of frames. */
  function Span(frames: nat, n: nat): nat
  {
    frames * n
  }

  lemma LenFits(m: nat, n: nat)
    requires n > 0
    ensures Span(m / n, n) <= m
  {
  }

  lemma NextFrameFits(done: nat, len: nat, n: nat)
    requires done < len && n > 0
    ensures Span(done + 1, n) == Span(done, n) + n <= Span(len, n)
  {
    assert done * n + n == (done + 1) * n;
    MulMonotone(done + 1, len, n);
  }

  lemma MulMonotone(a: nat, b: nat, n: nat)
    requires a <= b
    ensures a * n <= b * n
  {
    assert b * n - a * n == (b - a) * n;
  }

  /** A stream channel: its options with defaults filled, and the number of
      pink noise rows it runs (0 for any other kind). */
  datatype Channel = Channel(params: Params, pinkRows: nat)

  /** Stream channel i: configured channel i modulo the number configured,
      with its defaults, and its pink noise row count. */
  function ChannelFor(configs: seq<Params>, i: nat): (ch: Channel)
    requires |configs| > 0
    ensures ch.pinkRows <= PinkNoiseGen.MaxRandomRows
    ensures ch.params.kind == configs[i % |configs|].kind
    ensures ch.params == SetDefaultParameters(configs[i % |configs|])
    ensures ch.pinkRows == (if ch.params.kind == PinkNoise then PinkRows(i) else 0)
  {
    var c := SetDefaultParameters(configs[i % |configs|]);
    Channel(c, if c.kind == PinkNoise then PinkRows(i) else 0)
  }

  /** The configured channels repeat across the stream's channels: channel
      i + |configs| has the options of channel i; only the pink noise row
      count depends on the position itself. */
  lemma ChannelsRepeat(configs: seq<Params>, i: nat)
    requires |configs| > 0
    ensures ChannelFor(configs, i + |configs|).params == ChannelFor(configs, i).params
  {
    DivModUnique(i + |configs|, |configs|, i / |configs| + 1, i % |configs|);
  }

  /** Pluck runs only at 44.1 kHz to 48 kHz. */
  predicate PluckRateOk(rate: real)
  {
    44100.0 <= rate <= 48000.0
  }

  /** Start-up: stream channel i takes configured channel i modulo the
      number configured and gets its defaults; the first pluck channel found
      at a rate outside 44.1 kHz to 48 kHz refuses the start. */
  method StartChannels(configs: seq<Params>, n: nat, rate: real) returns (r: Result<seq<Channel>>)
    requires |configs| > 0
    ensures r.Ok? ==> |r.value| == n && forall i :: 0 <= i < n ==> r.value[i] == ChannelFor(configs, i)
    ensures r.Err? ==> r.error == PluckSampleRate
    ensures r.Err? <==> !PluckRateOk(rate) && exists i :: 0 <= i < n && configs[i % |configs|].kind == Pluck
  {
    var channels: seq<Channel> := [];
    var i := 0;
    while i < n
      invariant i <= n && |channels| == i
      invariant forall j :: 0 <= j < i ==> channels[j] == ChannelFor(configs, j)
      invariant !PluckRateOk(rate) ==> forall j :: 0 <= j < i ==> configs[j % |configs|].kind != Pluck
    {
      var ch := ChannelFor(configs, i);
      if ch.params.kind == Pluck && !PluckRateOk(rate) {
        return Err(PluckSampleRate);
      }
      channels := channels + [ch];
      i := i + 1;
    }
    return Ok(channels);
  }
}
