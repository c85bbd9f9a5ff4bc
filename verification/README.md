# SoX `synth` effect: a verified model of its core

This project models the deterministic core of the SoX `synth` effect
(`jni/sox/src/synth.c`). The effect generates a multi-channel signal and can
combine it with an input signal. The model covers:

- the Voss-McCartney pink noise generator: an integer row array, a running
  sum and a masked index (`PinkNoiseGen`, a class over an `array<int>`);
- the per-channel defaulting of the shape parameters p1..p3 and of the pink
  noise row count (`Defaults`);
- the piecewise-linear waveforms square, sawtooth, triangle and trapezium,
  as functions of a phase in [0, 1) (`Waveforms`);
- tpdf noise and the brown noise rejection walk (`Noise`);
- the DC offset, the four combine modes, the headroom gain and the rounding
  of each output sample (`Mixer`);
- the Karplus-Strong plucked string: the per-sample delay-line step, the
  in-delay filter graduation and the min/max normalisation (`Pluck`, a class
  over an `array<real>`);
- the block driver, with its frame loop, its sample counter and its
  end-of-stream logic, and the start-up round-robin copy of the configured
  channels onto the stream's channels (`Driver`);
- the validation rules of the argument parser, over arguments already
  classified by the string and number parsers (`Options`).

Samples and signal values are `real`, an idealisation of C `double`. Random
draws are parameters: each draw is a value of the generator's range, bounded
by a precondition. Shared arithmetic lemmas live in `Arith`. The parameter
record, the kinds, the modes and the errors live in `SynthTypes`.

## Model

| member | source | states |
|---|---|---|
| SynthTypes.CreateChannel | jni/sox/src/synth.c:199-204 | a fresh channel is sine, create, linear, 440 Hz at both ends, offset and phase 0, p1..p3 unset, and within the option ranges |
| PinkNoiseGen.Sum | jni/sox/src/synth.c:142-145 | the sum of the rows, the quantity the running sum caches; defined by recursion, its properties are SumBound, SumUpdate and ZeroSum |
| PinkNoiseGen.TrailingZeros | jni/sox/src/synth.c:128-136 | the number of trailing zero bits of a positive index; defined by recursion, its properties are TrailingZerosDivides, TrailingZerosBelow and TrailingZerosPeriod |
| PinkNoiseGen.PinkMax | jni/sox/src/synth.c:107-108 | pmax = (rows + 1) * 2^23 is at least one draw's magnitude |
| PinkNoiseGen.TrailingZerosDivides | jni/sox/src/synth.c:128-136 | the counted zeros are the exponent of the largest power of two dividing the index |
| PinkNoiseGen.TrailingZerosBelow | jni/sox/src/synth.c:124-145 | a nonzero index below 2^rows has fewer than rows trailing zeros, so the row it selects exists |
| PinkNoiseGen.TrailingZerosPeriod | jni/sox/src/synth.c:124-145 | row z is refreshed exactly at the indices congruent to 2^z modulo 2^(z+1): the octave spacing of the rows |
| PinkNoiseGen.SumBound | jni/sox/src/synth.c:142-150 | rows that are all draws sum to a value in [-rows * 2^23, rows * (2^23 - 1)] |
| PinkNoiseGen.SumUpdate | jni/sox/src/synth.c:142-145 | replacing one row changes the sum of the rows by new minus old, the update the running sum performs |
| PinkNoiseGen.ZeroSum | jni/sox/src/synth.c:111-113 | zeroed rows sum to 0, matching the zeroed running sum |
| PinkNoiseGen.OutputBound | jni/sox/src/synth.c:148-153 | rows plus the white draw, scaled by 1 / pmax, lie in [-1, 1) |
| PinkNoiseGen.PinkScaleBound | jni/sox/src/synth.c:107-109 | any total in [-pmax, pmax) scales into [-1, 1) |
| PinkNoiseGen.ScaledBy | jni/sox/src/synth.c:153 | multiplying by the stored scalar is dividing by pmax |
| PinkNoiseGen.CountTrailingZeros | jni/sox/src/synth.c:128-136 | the shift loop returns the trailing zero count of a positive index |
| PinkNoiseGen.PinkNoise.constructor | jni/sox/src/synth.c:91-97 | a generator owns a row array of capacity 30 |
| PinkNoiseGen.PinkNoise.Initialize | jni/sox/src/synth.c:100-114 | for rows <= 30: index 0, mask 2^rows - 1, scalar 1 / pmax, the used rows zeroed, the running sum 0 and equal to the rows' sum, unused rows untouched |
| PinkNoiseGen.PinkNoise.Advance | jni/sox/src/synth.c:123-146 | the index steps modulo 2^rows; at 0 no row changes; otherwise exactly the row given by the trailing zeros takes the draw, and the running sum stays the sum of the rows |
| PinkNoiseGen.PinkNoise.Generate | jni/sox/src/synth.c:117-156 | Advance, then the output is (running sum + white draw) / pmax, in [-1, 1), with the running sum invariant kept |
| Waveforms.SquareWave | jni/sox/src/synth.c:585 | the square wave is exactly +1 or -1, and +1 exactly before the duty point |
| Waveforms.SawtoothWave | jni/sox/src/synth.c:597 | the sawtooth lies in [-1, 1) and the phase is recovered from it |
| Waveforms.TriangleWave | jni/sox/src/synth.c:610-613 | the triangle lies in [-1, 1], each division on a branch with a positive divisor |
| Waveforms.TrapeziumWave | jni/sox/src/synth.c:625-632 | the trapezium lies in [-1, 1], each division on a branch with a positive divisor |
| Waveforms.ValuesAtPhaseZero | jni/sox/src/synth.c:585-632 | the values at phase 0: square +1 exactly when p1 > 0, sawtooth -1, triangle -1 unless p1 = 0, trapezium -1 when p1 > 0 |
| Waveforms.SawtoothIncreasing | jni/sox/src/synth.c:597 | the sawtooth is strictly increasing over the period |
| Waveforms.TriangleRises | jni/sox/src/synth.c:610-611 | the triangle is non-decreasing before p1 |
| Waveforms.TriangleFalls | jni/sox/src/synth.c:612-613 | the triangle is non-increasing from p1 on and is +1 at p1 |
| Waveforms.TrapeziumPlateaus | jni/sox/src/synth.c:625-632 | the trapezium is +1 on [p1, p2) and -1 past all three corners |
| Waveforms.TrapeziumSlopes | jni/sox/src/synth.c:625-630 | the trapezium rises before p1 and falls on [p2, p3) |
| Waveforms.SquareOnePeriod | jni/sox/src/synth.c:576-585 | a 50% square wave sampled at four phases gives +1, +1, -1, -1 |
| Mixer.ApplyOffset | jni/sox/src/synth.c:695-696 | the DC offset: the value scaled by 1 - abs(offset), plus the offset; its properties are OffsetEnds, OffsetInUnit, OffsetInvertible and OffsetMonotone |
| Mixer.OffsetEnds | jni/sox/src/synth.c:695-696 | a zero offset changes nothing, silence becomes the offset, and the full swing on the offset's side still reaches +1 or -1 |
| Mixer.Headroom | jni/sox/src/synth.c:695-696 | the gain 1 - abs(offset) leaves room on both sides of the offset, and is 1 exactly when the offset is 0 |
| Mixer.OffsetInUnit | jni/sox/src/synth.c:695-696 | a value in [-1, 1] with an offset in [-1, 1] stays in [-1, 1] |
| Mixer.OffsetInvertible | jni/sox/src/synth.c:696 | for abs(offset) < 1 the generated value is recovered from the offset one |
| Mixer.OffsetMonotone | jni/sox/src/synth.c:696 | the offset mapping preserves the order of values |
| Mixer.Combine | jni/sox/src/synth.c:698-703 | create is the value at full scale; create, mix and amod stay in the 32-bit range; fmod stays within abs(input) |
| Mixer.MixBound | jni/sox/src/synth.c:700 | mix of a value in [-1, 1] with a 32-bit input is in the 32-bit range |
| Mixer.AmodBound | jni/sox/src/synth.c:701 | amod of a value in [-1, 1] with a 32-bit input is in the 32-bit range |
| Mixer.ScaleWithin | jni/sox/src/synth.c:702 | fmod by a value in [-1, 1] never grows the input's magnitude |
| Mixer.CreateIgnoresInput | jni/sox/src/synth.c:699 | in create mode two different inputs give the same output sample |
| Mixer.Truncate | jni/sox/src/synth.c:704 | C's conversion of a double to an integer; its property is TruncateTowardZero |
| Mixer.TruncateTowardZero | jni/sox/src/synth.c:704 | the conversion truncates toward zero: the result has the sign of x and lies within 1 of it, on the side of zero |
| Mixer.RoundToSample | jni/sox/src/synth.c:704 | the sign-dependent half bias and truncation round to within 0.5 and keep the sign |
| Mixer.RoundSymmetric | jni/sox/src/synth.c:704 | rounding commutes with negation |
| Mixer.OutputSampleAsWritten | jni/sox/src/synth.c:695-704 | the output sample as the source computes it: offset, combine, gain, half bias and truncation; its properties are CreateIgnoresInput, OutputInRange and FmodOverflow |
| Mixer.RoundInRange | jni/sox/src/synth.c:704 | a value in the 32-bit range rounds to a 32-bit sample |
| Mixer.GainWithin | jni/sox/src/synth.c:704 | a gain in [0, 1] keeps a value in the 32-bit range |
| Mixer.OutputInRange | jni/sox/src/synth.c:695-704 | offset, create/mix/amod, gain and rounding always yield a 32-bit sample |
| Mixer.FmodOverflow | jni/sox/src/synth.c:702-704 | fmod of -1 with the most negative input at unity gain yields 2^31, one past the largest sample |
| Mixer.Clip | jni/sox/src/synth.c:704 | the clip is a 32-bit sample and is the identity on 32-bit samples |
| Mixer.OutputSample | jni/sox/src/synth.c:695-704 | the corrected output is always a 32-bit sample and equals the source's value wherever that is representable |
| Noise.TpdfNoise | jni/sox/src/synth.c:659-661 | the mean of two draws lies between them, hence in [-1, 1] |
| Noise.TpdfSymmetric | jni/sox/src/synth.c:660 | tpdf noise is symmetric in its draws and under negation |
| Noise.BrownCandidate | jni/sox/src/synth.c:668 | a candidate moves from the last value in the direction of the draw's sign |
| Noise.BrownStep | jni/sox/src/synth.c:667-669 | the first candidate in [-1, 1] is taken, every earlier candidate was out of range, and without one every draw was rejected |
| Noise.BrownStepSize | jni/sox/src/synth.c:668 | an accepted candidate is within 1/16 of the last value |
| Noise.BrownAcceptsTowardZero | jni/sox/src/synth.c:668-669 | from a value in [-1, 1], a draw towards zero is always accepted |
| Noise.BrownStopsAtTowardZero | jni/sox/src/synth.c:668-669 | the search accepts at or before the first draw towards zero |
| Noise.BrownNoise.constructor | jni/sox/src/synth.c:199-201 | the walk starts at 0 |
| Noise.BrownNoise.Generate | jni/sox/src/synth.c:667-671 | the output is the candidate of the first draw whose candidate lies in [-1, 1], every earlier candidate was out of range, and it becomes the new state; the state moves by at most 1/16 and stays in [-1, 1]; there is an output exactly when some draw is acceptable, and otherwise the state is unchanged |
| Pluck.Clamp | jni/sox/src/synth.c:680 | range_limit to [-1, 1]: in range, identity inside, the nearest bound outside |
| Pluck.NextPos | jni/sox/src/synth.c:688 | the next position is pos + 1 modulo the length and stays inside the buffer |
| Pluck.PosAfterMod | jni/sox/src/synth.c:688 | n steps move the position by n modulo the length |
| Pluck.DelayLineRing | jni/sox/src/synth.c:684-688 | a slot is revisited exactly after len steps |
| Pluck.HighPass | jni/sox/src/synth.c:676-677 | the DC block: a constant input is blocked, leaving only the decaying output memory |
| Pluck.LowPass | jni/sox/src/synth.c:682 | the one-pole low pass: with c0 + c1 = 1 (before the decay factor) a steady value passes unchanged |
| Pluck.AllPass | jni/sox/src/synth.c:684-685 | the step's all pass: with c4 = 0 it is a one-sample delay of its input |
| Pluck.AllPassGraduation | jni/sox/src/synth.c:480-481 | the graduation pass's all pass is the same filter as the step's, so the delay line continues it without a seam |
| Pluck.FeedOne | jni/sox/src/synth.c:477-482 | the filter memories after one slot value: low pass, all pass, and the all-pass input set to the low-pass output |
| Pluck.Feed | jni/sox/src/synth.c:475-482 | the filter memories after a run of slot values, fed in order |
| Pluck.FeedAppend | jni/sox/src/synth.c:475-482 | feeding two runs in turn is feeding their concatenation: the filters run as one stream |
| Pluck.Blend | jni/sox/src/synth.c:476-484 | the cross-fade at j / len from the excitation to the filtered value; its properties are BlendWithin, BlendAtStart and BlendFixed |
| Pluck.BlendWithin | jni/sox/src/synth.c:476-484 | within the buffer the cross-fade stays between the excitation and the filtered value |
| Pluck.Graduated | jni/sox/src/synth.c:475-484 | slot k after graduation: the cross-fade of its excitation and the all-pass output after slots 0..k |
| Pluck.BlendAtStart | jni/sox/src/synth.c:476-484 | graduation leaves slot 0 at its excitation |
| Pluck.BlendFixed | jni/sox/src/synth.c:484 | graduation changes nothing where excitation and filtered value agree |
| Pluck.Normalised | jni/sox/src/synth.c:491 | the normalising expression (2x - hi - lo) / (hi - lo); its properties are NormalisedBound, NormalisedInvertible and NormalisedMonotone |
| Pluck.NormalisedBound | jni/sox/src/synth.c:491 | normalisation maps [lo, hi] into [-1, 1], hi onto 1 and lo onto -1 |
| Pluck.NormalisedInvertible | jni/sox/src/synth.c:491 | normalisation can be undone |
| Pluck.NormalisedMonotone | jni/sox/src/synth.c:491 | normalisation preserves order |
| Pluck.PluckString.constructor | jni/sox/src/synth.c:456-459 | the string holds the excitation, reads from slot 0, and every filter memory is 0 |
| Pluck.PluckString.Graduate | jni/sox/src/synth.c:474-487 | slot j becomes the cross-fade at j / len of its excitation and the all-pass output after slots 0..j; the memories end as after the whole buffer; lo and hi, seeded at 0, bound every slot and are attained unless 0 |
| Pluck.PluckString.GraduateSlot | jni/sox/src/synth.c:476-484 | one slot through low pass and all pass, then cross-faded; no other slot changes |
| Pluck.PluckString.Normalise | jni/sox/src/synth.c:489-493 | every slot is normalised from [lo, hi], and slots in [lo, hi] end in [-1, 1] |
| Pluck.PluckString.Prepare | jni/sox/src/synth.c:474-493 | graduation then normalisation: the memories end as after the whole buffer; every slot is its graduated value normalised from [lo, hi] (0 when the graduated buffer is all 0); every slot lies in [-1, 1], some slot is 1 when the maximum is positive and some slot is -1 when the minimum is negative |
| Pluck.PluckString.Step | jni/sox/src/synth.c:673-690 | the slot at pos feeds the high pass (output clamped to [-1, 1]) and, through low pass and all pass, is overwritten alone; pos moves on by one modulo the length |
| Defaults.TrapeziumDefaultsAsWritten | jni/sox/src/synth.c:226-240 | the source's cascade sets every corner, keeps a set p1, keeps p2 when p1 and p2 are set, and leaves a fully set shape unchanged; with nothing set it gives (0.1, 0.5, 0.6); with p1 > 0.5 and p2 unset, the asymmetric triangle (p1, p1, 1); with only p3 unset, p3 = 1 |
| Defaults.TrapeziumAsWrittenJumps | jni/sox/src/synth.c:230-233 | with p1 = 0.4 the source's fallback gives p2 = 0.1 < p1 and the wave jumps from 0.95 to -0.5 |
| Defaults.TrapeziumAsWrittenAsymmetric | jni/sox/src/synth.c:231-233 | with p1 = 0.1 the source's fallback gives high and low parts of different lengths |
| Defaults.TrapeziumDefaults | jni/sox/src/synth.c:226-240 | the corrected cascade sets every corner, keeps set values in cascade order, and leaves a fully set shape unchanged; with nothing set it gives (0.1, 0.5, 0.6); with p1 > 0.5 and p2 unset, the asymmetric triangle (p1, p1, 1); with only p3 unset, p3 = 1 |
| Defaults.TrapeziumDefaultsSymmetric | jni/sox/src/synth.c:230-238 | the corrected fallback orders the corners and, for p1 <= 0.5, is symmetric |
| Defaults.TrapeziumPeakAtP1 | jni/sox/src/synth.c:625-628 | with ordered corners the wave reaches +1 at p1, without a jump |
| Defaults.PinkRowsAsWritten | jni/sox/src/synth.c:245 | the source's pink row count 10 + 2c for stream channel c; its property is PinkRowsAsWrittenOverflow |
| Defaults.PinkRowsAsWrittenOverflow | jni/sox/src/synth.c:245 | 10 + 2c exceeds the 30-row array exactly from channel 11 on |
| Defaults.PinkRows | jni/sox/src/synth.c:245 | the corrected row count is in [10, 30] and is 10 + 2c wherever that fits |
| Defaults.FillDefaults | jni/sox/src/synth.c:208-263 | the per-kind switch of the defaulting, given the trapezium's completed shape; both defaultings are this switch |
| Defaults.SetDefaultParametersAsWritten | jni/sox/src/synth.c:208-263 | the source's defaulting: only p1..p3 change; every parameter the kind reads is set; sine, sawtooth and the noises are unchanged; an unset p1 becomes 0.5 for square, triangle and exp and 0.4 for pluck; an unset exp p2 becomes 0.5; an unset pluck p2 gives p2 = 0.2 and p3 = 0.9; a trapezium gets the source's cascade |
| Defaults.SetDefaultParameters | jni/sox/src/synth.c:208-263 | the defaulting with the corrected trapezium fallback (see Findings): only p1..p3 change; every parameter the kind reads is set; sine, sawtooth and the noises are unchanged; the same filled values as the source's for square, triangle, exp and pluck; a trapezium gets the corrected cascade |
| Defaults.DefaultsDifferOnlyInFallback | jni/sox/src/synth.c:226-240 | the two defaultings differ exactly for a trapezium with 0 < p1 <= 0.5 and p2 unset |
| Defaults.DefaultsKeepSetValues | jni/sox/src/synth.c:211-259 | square, triangle and exp fill only unset values; pluck overwrites p3 with 0.9 whenever p2 is unset; for every kind but trapezium the two defaultings agree |
| Defaults.DefaultsIdempotent | jni/sox/src/synth.c:208-263 | defaulting twice is defaulting once, for both defaultings |
| Defaults.DefaultsKeepRanges | jni/sox/src/synth.c:208-263 | both defaultings keep a channel within the option ranges |
| Options.SetSlot | jni/sox/src/synth.c:274 | storing a numeric parameter sets that slot alone and keeps kind, mode, frequencies and sweep |
| Options.ReadNumbers | jni/sox/src/synth.c:265-277 | the only error is a parameter error; at most the remaining slots are read; kind, mode, frequencies and sweep are kept, and so are the option ranges |
| Options.ReadNumbersReads | jni/sox/src/synth.c:265-277 | a successful reading took each argument it read as a number in range without trailing text, stored it divided by 100 in the next slot in the order offset, phase, p1, p2, p3, left every other slot alone, and stopped at the end of the arguments, after p3 or at an argument holding no number |
| Options.ReadNumbersRefuses | jni/sox/src/synth.c:265-277 | the reading fails exactly when, among the arguments it reaches, one holds a number out of range or followed by other characters |
| Options.RefusedBehind | jni/sox/src/synth.c:265-277 | a refused number further on, behind a number that is taken, is refused from here |
| Options.RefusedAhead | jni/sox/src/synth.c:265-277 | a refused number reached from here, when the first number is taken, is refused from the next argument |
| Options.CheckFreq | jni/sox/src/synth.c:351-379 | a frequency argument is accepted exactly when it meets the order-independent conditions |
| Options.CheckFreqOrder | jni/sox/src/synth.c:351-360 | a bad frequency is reported before a sweep on a noise, and that before later checks |
| Options.MasterWellFormed | jni/sox/src/synth.c:330-333 | a copy of the master with its own kind and mode is a well-formed channel |
| Options.ChannelHead | jni/sox/src/synth.c:330-383 | is HeadOf; a copy of the master with the named kind, the combine mode if the next argument names one, and the checked frequencies if the argument after that is a frequency; it fails exactly when that frequency is refused, with the error of the first failing check; the numeric parameters stay the master's |
| Options.ParseChannel | jni/sox/src/synth.c:323-392 | is ChannelOf; one channel: its kind, mode and checked frequency as in ChannelHead (a refused frequency gives its error); with the frequency accepted it fails exactly when a number is refused, as a parameter error; its numbers are read in order onto the master's; the result is well-formed, and under Classified no argument it read after the kind names a kind |
| Options.TypeNamesUntyped | jni/sox/src/synth.c:323-333 | arguments that name no kind add nothing to the kinds named |
| Options.TypeNamesChannel | jni/sox/src/synth.c:323-333 | a channel read from a kind name to the next kind name adds exactly that kind |
| Options.MasterRead | jni/sox/src/synth.c:312-321 | the numbers read first make a master channel, and under Classified the arguments they took name no kind |
| Options.ParseChannels | jni/sox/src/synth.c:323-393 | is ChannelsOf, whose success and failure ChannelsOfChained, ChannelsOfAtKinds and ChannelsOfRefusal state; channel after channel: an argument where a channel must start that names no kind is refused as no type given; no channel exactly when no argument is left; under Classified one channel per kind named, in order |
| Options.HeadOf | jni/sox/src/synth.c:330-383 | the head of a channel: accepted exactly when its frequency argument, if any, passes the checks; otherwise the error of the first failing check; the numbers start right after the head |
| Options.ChannelOf | jni/sox/src/synth.c:323-393 | one channel, the head then the numbers; it ends after its kind argument and within the arguments |
| Options.ChannelOfRefuses | jni/sox/src/synth.c:351-379 | a channel fails exactly when its frequency is refused or, with the frequency accepted, one of its numbers is refused, and with that refusal's error |
| Options.ChannelOfSpan | jni/sox/src/synth.c:336-393 | under Classified, no argument a channel reads after its kind names a kind |
| Options.ChannelOfKind | jni/sox/src/synth.c:330-333 | a channel has the kind its first argument names |
| Options.KindPositions | jni/sox/src/synth.c:323-328 | the positions of the kind names from an argument on: each names a kind, and every kind name is among them |
| Options.NextKind | jni/sox/src/synth.c:323-328 | the first kind name from an argument on, or the end; no argument before it names a kind |
| Options.ChainedStep | jni/sox/src/synth.c:323-393 | one accepted channel that ends where it ends leaves the rest of the chain to its end |
| Options.ChannelsOfStart | jni/sox/src/synth.c:323-328 | the parse refuses, as no type given, an argument naming no kind where a channel starts; it gives no channel only when no argument is left |
| Options.ChannelsOfChained | jni/sox/src/synth.c:323-393 | under Classified, the channel loop succeeds exactly when every channel read at a kind name is accepted and ends exactly at the next kind name or at the end, the first kind name being where the loop starts |
| Options.ChannelsOfAtKinds | jni/sox/src/synth.c:323-393 | under Classified, a successful loop gives one channel per kind name, channel i being the one read at the i-th kind name |
| Options.ChannelsOfKinds | jni/sox/src/synth.c:323-393 | under Classified, the channels of a successful loop have the kinds named, in order |
| Options.ChannelsOfRefusal | jni/sox/src/synth.c:323-393 | a failed loop names an argument that refuses it: no kind where a channel starts, a refused frequency with its check's error, or a refused number as a parameter error |
| Options.ArgsOfRefusal | jni/sox/src/synth.c:312-393 | a failed parse is a refused master number or names the argument that refuses a channel, with its error |
| Options.ArgsOfAtKinds | jni/sox/src/synth.c:312-400 | under Classified, the parse succeeds exactly when the master's numbers are accepted and the channels chain from where they end; then it gives the master alone when no kind is named, and otherwise one channel per kind name, the one read there |
| Options.ParseArgs | jni/sox/src/synth.c:312-400 | is ArgsOf, whose success and failure ArgsOfAtKinds and ArgsOfRefusal state; no arguments give a single default sine; at least one channel, every one well-formed; a refused master number is a parameter error; the first argument after the master's numbers must name a kind, or the parse fails with no type given; with no kind named, the master alone, a sine read from all arguments; under Classified one channel per kind named, in order |
| Driver.Frames | jni/sox/src/synth.c:534-538 | a block processes at most len frames |
| Driver.EndsStream | jni/sox/src/synth.c:706-707 | a block ends the stream when the counter, below the target, reaches it within the block; its properties are FramesMeetTarget, UnboundedNeverEnds and RunReachesTarget |
| Driver.FramesMeetTarget | jni/sox/src/synth.c:706-707 | a block never passes the target and ends the stream exactly when it reaches it |
| Driver.UnboundedNeverEnds | jni/sox/src/synth.c:706-707 | without a target the stream never ends and every block is whole |
| Driver.RunReachesTarget | jni/sox/src/synth.c:706-707 | over a run of blocks the stream ends exactly when enough frames were offered, and then exactly at the target |
| Driver.Synth.constructor | jni/sox/src/synth.c:415 | the sample counter starts at 0 |
| Driver.Synth.Flow | jni/sox/src/synth.c:530-711 | frames processed, counter growth, EOF and the consumed/produced count done * channels; output i is frame counter + i / channels on channel i % channels with input i; the rest of the output buffer is untouched |
| Driver.WriteFrame | jni/sox/src/synth.c:539-541 | one frame writes its n samples, channel by channel, and nothing else |
| Driver.FlowExit | jni/sox/src/synth.c:538 | the frame loop stops after Frames frames with EOF exactly at the target |
| Driver.LenFits | jni/sox/src/synth.c:534 | len whole frames fit in both buffers |
| Driver.ChannelFor | jni/sox/src/synth.c:423-426 | stream channel i is configured channel i modulo the count after the defaulting; a pink noise channel gets PinkRows(i) rows, any other none; the row count is within the array |
| Driver.ChannelsRepeat | jni/sox/src/synth.c:425 | the configured channels repeat with period equal to their count |
| Driver.StartChannels | jni/sox/src/synth.c:421-443 | every stream channel is the round-robin copy with defaults; the start fails exactly when a pluck channel meets a rate outside 44.1 to 48 kHz |

## Left out

- Sine and exp waveforms, the four sweep laws and the fmod phase folding (synth.c:546-573, 644-649) use sin, exp, log and fmod, which have no exact model over the reals.
- The derivation of the sweep rate and of the pluck coefficients c0..c4 and buffer length (synth.c:430-455, 499-515) uses transcendental functions. The coefficients and a positive buffer length are inputs.
- The pluck excitation loop (synth.c:458-472) draws from the random generator. The excitation is an input of the constructor.
- The random generators RANQD1, DRANQD1 and dranqd1 are not part of this model. Every draw is a parameter.
- The string and number parsers, the note parser, the duration parser and the enumeration lookups are not part of this model. Each argument arrives classified, and the duration is a flag.
- The "-n" and "-j" options and the default channel count written into the host's signal (synth.c:292-300, 402-403) are host plumbing.
- Memory allocation, `stop`, `kill`, the handler table, the gain pointer, debug logging and the TEST_PLUCK block are left out.
- The rms sum of the normalisation loop (synth.c:492) feeds only a debug message.
- Values are reals. Double rounding, float pink scalars and the 32-bit `unsigned` frame counters of `flow` are not modelled.
- Driver.Synth.Flow: the value of each sample is an abstract function of frame, channel and input sample. The per-channel generator state (pink rows, brown walk, pluck string) is not threaded through the block loop. Each generator is modelled by its own class.
- PinkNoiseGen.PinkNoise.Initialize: requires at most 30 rows, which the source's caller does not guarantee (see Findings). The model's callers use Defaults.PinkRows.
- PinkNoiseGen.PinkNoise.Generate: takes its row draw even when the index wraps to 0, where the source draws nothing for the rows.
- Noise.BrownStep: the source keeps drawing until a candidate is accepted. The model tries a finite sequence of draws and reports None when all of them are rejected.
- Pluck.PluckString.Normalise: requires lo < hi. When graduation leaves the whole buffer at 0, the source divides 0 by 0; Pluck.PluckString.Prepare then leaves the buffer at 0.
- Defaults.SetDefaultParameters: applies the corrected symmetric trapezium fallback (see Findings). Defaults.SetDefaultParametersAsWritten is the source's defaulting, and Defaults.DefaultsDifferOnlyInFallback says exactly where the two differ. Driver.ChannelFor uses the corrected one.
- Options.ParseChannels, Options.ParseArgs: the statements of when the parse succeeds and what each channel is (ChannelsOfChained, ChannelsOfAtKinds, ChannelsOfKinds, ArgsOfAtKinds) assume Classified, that the text parsers never read a kind name as a number or as a combine mode, which holds for the kind names the effect knows.

Where the prose description of the effect and the code differ, the model follows the code:
- The normalisation min and max start at 0, so the normalised buffer spans exactly [-1, 1] only when the graduated buffer has values of both signs.
- The pink index is masked with 2^rows - 1, so it cycles modulo 2^rows.

## Findings

| source | as written | input that shows it | evidently intended | confidence | as-written member | corrected member |
|---|---|---|---|---|---|---|
| jni/sox/src/synth.c:231-233 | the symmetric trapezium fallback sets p2 = (1 - 2 p1) / 2, a length, where p2 is the position where the falling slope starts | p1 = 0.4 with p2 unset gives (0.4, 0.1, 0.5): the wave jumps from 0.95 to -0.5 at phase 0.4 | p2 = 0.5 and p3 = 0.5 + p1, which is symmetric and matches the full default (0.1, 0.5, 0.6) | not executed | Defaults.TrapeziumAsWrittenJumps | Defaults.TrapeziumDefaultsSymmetric |
| jni/sox/src/synth.c:245 | pink noise channel c asks for 10 + 2c rows of a 30-row array | channel index 11 asks for 32 rows: the row array overflows and the mask shift is undefined | a row count capped at 30 | not executed | Defaults.PinkRowsAsWrittenOverflow | Defaults.PinkRows |
| jni/sox/src/synth.c:702-704 | fmod multiplies the most negative input by a generated -1 and converts without a clip | offset 0, value -1, input -2^31, gain 1 (headroom disabled): 2^31 before conversion | a value clipped to the 32-bit range | not executed | Mixer.FmodOverflow | Mixer.OutputSample |
