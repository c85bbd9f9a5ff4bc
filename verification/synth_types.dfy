/** The values shared by every part of the synth effect: the waveform and
    noise kinds, the combine modes, the sweep laws, one channel's parameter
    record and the errors that refuse a configuration. */
module SynthTypes {

  /** The synthesis kinds, in the order of the source's enumeration. The
      first six are tones (they need a phase), the rest are noises. */
  datatype SynthType =
    | Sine | Square | Sawtooth | Triangle | Trapezium | Exp
    | WhiteNoise | TpdfNoise | PinkNoise | BrownNoise | Pluck

  /** A tone is any kind before white noise; only tones can be swept. */
  predicate IsTone(t: SynthType)
  {
    t.Sine? || t.Square? || t.Sawtooth? || t.Triangle? || t.Trapezium? || t.Exp?
  }

  /** How the generated signal meets the input signal. */
  datatype CombineMode = Create | Mix | Amod | Fmod

  /** The sweep laws, selected by the separators ':', '+', '/' and '-'. */
  datatype SweepLaw = LinearSweep | SquareSweep | ExpSweep | ExpCycleSweep

  /** The two exponential laws, which come after the square law. */
  predicate IsExponential(s: SweepLaw)
  {
    s.ExpSweep? || s.ExpCycleSweep?
  }

  /** The options part of one channel. p1, p2 and p3 are -1 while unset. */
  datatype Params = Params(kind: SynthType, combine: CombineMode, freq: real, freq2: real,
    sweep: SweepLaw, offset: real, phase: real, p1: real, p2: real, p3: real)

  /** The sentinel of a shape parameter nobody has set. */
  const Unset: real := -1.0

  /** The frequency a channel has before any is given, in Hz. */
  const DefaultFreq: real := 440.0

  /** A zeroed channel with both frequencies 440 Hz and p1..p3 unset. */
  function CreateChannel(): (c: Params)
    ensures c.kind == Sine && c.combine == Create && c.sweep == LinearSweep
    ensures c.freq == c.freq2 == DefaultFreq
    ensures c.offset == 0.0 && c.phase == 0.0
    ensures c.p1 < 0.0 && c.p2 < 0.0 && c.p3 < 0.0
    ensures InRange(c)
  {
    Params(Sine, Create, DefaultFreq, DefaultFreq, LinearSweep, 0.0, 0.0, Unset, Unset, Unset)
  }

  /** The range of a generated value, an offset and a random draw. */
  predicate InUnit(x: real)
  {
    -1.0 <= x <= 1.0
  }

  /** A shape parameter is either unset or a fraction in [0, 1]. */
  predicate FractionOrUnset(x: real)
  {
    x == Unset || 0.0 <= x <= 1.0
  }

  /** The ranges the numeric options allow once divided by 100: the offset
      in [-1, 1], the phase and p1..p3 in [0, 1] unless still unset. */
  predicate InRange(c: Params)
  {
    -1.0 <= c.offset <= 1.0 && 0.0 <= c.phase <= 1.0
    && FractionOrUnset(c.p1) && FractionOrUnset(c.p2) && FractionOrUnset(c.p3)
  }

  /** Why a configuration is refused before any sample is produced. */
  datatype ConfigError =
    | NoTypeGiven           // a channel that does not start with a type name
    | ParameterError        // a numeric parameter out of range or malformed
    | InvalidFreq           // negative, or outside the pluck range
    | CantSweep             // a sweep on a noise or pluck channel
    | InvalidFreq2          // negative end frequency
    | DurationRequired      // an end frequency without a duration
    | TrailingCharacter     // junk after the frequency
    | InvalidExpSweepFreq   // an exponential sweep with a zero endpoint
    | PluckSampleRate       // pluck outside 44100..48000 Hz

  datatype Result<T> = Ok(value: T) | Err(error: ConfigError)

  datatype Option<T> = None | Some(value: T)
}
