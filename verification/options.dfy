/** Validation of the effect's arguments. The text of each argument is
    classified beforehand by the string and number parsers (not part of this
    model); what they report is given with each argument: whether it names
    a kind or a combine mode, whether it starts with '-', what the frequency
    parser reads from it and what the number parser reads from it. The
    duration, the "-n" and "-j KEY" options come before these arguments and
    are reduced to whether a duration was given. */
module Options {
  import opened SynthTypes

  /** What the number parser reads: nothing at all, or a value with or
      without characters left after it. */
  datatype NumberToken = NoNumber | Number(value: real, trailing: bool)

  /** What the frequency parser reads: a frequency, optionally followed by
      a sweep separator and an end frequency, and whether characters are left
      after the last frequency read. A frequency the parser rejects reads as
      negative. */
  datatype FreqToken = FreqToken(freq: real, sweep: Option<SweepLaw>, freq2: real, trailing: bool)

  datatype Arg = Arg(
    typeName: Option<SynthType>,
    combineName: Option<CombineMode>,
    startsWithDash: bool,
    asFreq: FreqToken,
    asNumber: NumberToken)

  /** The numeric parameters in order: offset, phase, p1, p2, p3. */
  const NumberSlots: nat := 5

  /** The lowest value each numeric parameter accepts before division by
      100; the highest is 100 for all. */
  function SlotMin(slot: nat): real
  {
    if slot == 0 then -100.0 else 0.0
  }

  /** The value of numeric parameter slot: offset, phase, p1, p2, p3. */
  function Slot(c: Params, slot: nat): real
    requires slot < NumberSlots
  {
    if slot == 0 then c.offset
    else if slot == 1 then c.phase
    else if slot == 2 then c.p1
    else if slot == 3 then c.p2
    else c.p3
  }

  function SetSlot(c: Params, slot: nat, v: real): (r: Params)
    requires slot < NumberSlots
    ensures Slot(r, slot) == v
    ensures forall s :: 0 <= s < NumberSlots && s != slot ==> Slot(r, s) == Slot(c, s)
    ensures r.kind == c.kind && r.combine == c.combine && r.freq == c.freq
      && r.freq2 == c.freq2 && r.sweep == c.sweep
  {
    if slot == 0 then c.(offset := v)
    else if slot == 1 then c.(phase := v)
    else if slot == 2 then c.(p1 := v)
    else if slot == 3 then c.(p2 := v)
    else c.(p3 := v)
  }

  /** Reads numeric parameters from argument argn on, into the slots from
      slot on: the reading stops at the end of the arguments, after p3, or
      at an argument that holds no number (it then starts the next channel);
      a number out of range or followed by other characters is refused.
      Returns the channel and the index of the first argument not read. */
  function ReadNumbers(c: Params, args: seq<Arg>, argn: nat, slot: nat): (r: Result<(Params, nat)>)
    requires argn <= |args| && slot <= NumberSlots
    ensures r.Err? ==> r.error == ParameterError
    ensures r.Ok? ==> argn <= r.value.1 <= |args| && r.value.1 - argn <= NumberSlots - slot
    ensures r.Ok? ==> (r.value.0.kind == c.kind && r.value.0.combine == c.combine
      && r.value.0.freq == c.freq && r.value.0.freq2 == c.freq2 && r.value.0.sweep == c.sweep)
    ensures r.Ok? && InRange(c) ==> InRange(r.value.0)
    decreases NumberSlots - slot
  {
    if slot == NumberSlots || argn == |args| then Ok((c, argn))
    else match args[argn].asNumber
      case NoNumber => Ok((c, argn))
      case Number(d, trailing) =>
        if d < SlotMin(slot) || d > 100.0 || trailing then Err(ParameterError)
        else ReadNumbers(SetSlot(c, slot, d / 100.0), args, argn + 1, slot + 1)
  }

  /** A number the reader takes for numeric parameter slot. */
  predicate Acceptable(tok: NumberToken, slot: nat)
  {
    tok.Number? && !tok.trailing && SlotMin(slot) <= tok.value <= 100.0
  }

  /** The arguments from, ..., to - 1 were read, in order, into the slots
      from slot on, each as its number divided by 100; every other slot of
      after is that of before; and the reading stopped at the end of the
      arguments, after p3 or at an argument holding no number. */
  predicate NumbersRead(before: Params, after: Params, args: seq<Arg>, from: nat, to: nat, slot: nat)
  {
    from <= to <= |args| && slot + (to - from) <= NumberSlots
    && (forall k :: from <= k < to ==>
          Acceptable(args[k].asNumber, slot + (k - from))
          && Slot(after, slot + (k - from)) == args[k].asNumber.value / 100.0)
    && (forall s :: 0 <= s < NumberSlots && (s < slot || slot + (to - from) <= s) ==>
          Slot(after, s) == Slot(before, s))
    && (to == |args| || slot + (to - from) == NumberSlots || args[to].asNumber.NoNumber?)
  }

  /** A reading onto a channel whose numeric parameters are those of
      before is a reading onto before. */
  lemma NumbersReadRebase(before: Params, mid: Params, after: Params, args: seq<Arg>, from: nat, to: nat, slot: nat)
    requires NumbersRead(mid, after, args, from, to, slot)
    requires forall s :: 0 <= s < NumberSlots ==> Slot(mid, s) == Slot(before, s)
    ensures NumbersRead(before, after, args, from, to, slot)
  {
  }

  /** Only arguments holding numbers are read. */
  lemma NumbersReadUntyped(before: Params, after: Params, args: seq<Arg>, from: nat, to: nat, slot: nat)
    requires NumbersRead(before, after, args, from, to, slot) && Classified(args)
    ensures forall k :: from <= k < to ==> args[k].typeName.None?
  {
    forall k | from <= k < to
      ensures args[k].typeName.None?
    {
      assert Acceptable(args[k].asNumber, slot + (k - from));
    }
  }

  /** What a successful reading did: which arguments it took, where they
      went and why it stopped. */
  lemma {:induction false} ReadNumbersReads(c: Params, args: seq<Arg>, argn: nat, slot: nat)
    requires argn <= |args| && slot <= NumberSlots
    requires ReadNumbers(c, args, argn, slot).Ok?
    ensures NumbersRead(c, ReadNumbers(c, args, argn, slot).value.0, args, argn,
      ReadNumbers(c, args, argn, slot).value.1, slot)
    decreases NumberSlots - slot
  {
    if slot < NumberSlots && argn < |args| && args[argn].asNumber.Number? {
      var tok := args[argn].asNumber;
      assert Acceptable(tok, slot);
      var c' := SetSlot(c, slot, tok.value / 100.0);
      ReadNumbersReads(c', args, argn + 1, slot + 1);
      var r := ReadNumbers(c', args, argn + 1, slot + 1).value;
      assert ReadNumbers(c, args, argn, slot).value == r;
      NumbersReadStep(c, r.0, args, argn, r.1, slot);
    }
  }

  /** Taking one more number in front of a reading. */
  lemma NumbersReadStep(c: Params, after: Params, args: seq<Arg>, argn: nat, to: nat, slot: nat)
    requires argn < |args| && slot < NumberSlots && Acceptable(args[argn].asNumber, slot)
    requires NumbersRead(SetSlot(c, slot, args[argn].asNumber.value / 100.0), after, args, argn + 1, to, slot + 1)
    ensures NumbersRead(c, after, args, argn, to, slot)
  {
    var c' := SetSlot(c, slot, args[argn].asNumber.value / 100.0);
    assert slot + (to - argn) == (slot + 1) + (to - (argn + 1));
    forall k | argn <= k < to
      ensures Acceptable(args[k].asNumber, slot + (k - argn))
      ensures Slot(after, slot + (k - argn)) == args[k].asNumber.value / 100.0
    {
      if k > argn {
        assert slot + (k - argn) == (slot + 1) + (k - (argn + 1));
      }
    }
    forall s | 0 <= s < NumberSlots && (s < slot || slot + (to - argn) <= s)
      ensures Slot(after, s) == Slot(c, s)
    {
      assert Slot(after, s) == Slot(c', s);
    }
  }

  /** Some argument within reach of the reader holds a number it refuses,
      and every argument before it holds one it takes. */
  predicate NumbersRefused(args: seq<Arg>, argn: nat, slot: nat)
  {
    exists k :: argn <= k < |args| && k - argn < NumberSlots - slot
      && args[k].asNumber.Number? && !Acceptable(args[k].asNumber, slot + (k - argn))
      && (forall j :: argn <= j < k ==> Acceptable(args[j].asNumber, slot + (j - argn)))
  }

  /** A refusal further on, behind a number taken, is a refusal here. */
  lemma RefusedBehind(args: seq<Arg>, argn: nat, slot: nat)
    requires argn < |args| && slot < NumberSlots && Acceptable(args[argn].asNumber, slot)
    requires NumbersRefused(args, argn + 1, slot + 1)
    ensures NumbersRefused(args, argn, slot)
  {
    var k :| argn + 1 <= k < |args| && k - (argn + 1) < NumberSlots - (slot + 1)
      && args[k].asNumber.Number? && !Acceptable(args[k].asNumber, (slot + 1) + (k - (argn + 1)))
      && (forall j :: argn + 1 <= j < k ==> Acceptable(args[j].asNumber, (slot + 1) + (j - (argn + 1))));
    assert slot + (k - argn) == (slot + 1) + (k - (argn + 1));
    forall j | argn <= j < k
      ensures Acceptable(args[j].asNumber, slot + (j - argn))
    {
      if j > argn {
        assert slot + (j - argn) == (slot + 1) + (j - (argn + 1));
      }
    }
  }

  /** A refusal here, when the first number is taken, is one further on. */
  lemma RefusedAhead(args: seq<Arg>, argn: nat, slot: nat)
    requires argn < |args| && slot < NumberSlots && Acceptable(args[argn].asNumber, slot)
    requires NumbersRefused(args, argn, slot)
    ensures NumbersRefused(args, argn + 1, slot + 1)
  {
    var k :| argn <= k < |args| && k - argn < NumberSlots - slot
      && args[k].asNumber.Number? && !Acceptable(args[k].asNumber, slot + (k - argn))
      && (forall j :: argn <= j < k ==> Acceptable(args[j].asNumber, slot + (j - argn)));
    assert k != argn;
    assert slot + (k - argn) == (slot + 1) + (k - (argn + 1));
    forall j | argn + 1 <= j < k
      ensures Acceptable(args[j].asNumber, (slot + 1) + (j - (argn + 1)))
    {
      assert slot + (j - argn) == (slot + 1) + (j - (argn + 1));
    }
  }

  /** The reading fails exactly when it reaches a number it refuses. */
  lemma {:induction false} ReadNumbersRefuses(c: Params, args: seq<Arg>, argn: nat, slot: nat)
    requires argn <= |args| && slot <= NumberSlots
    ensures ReadNumbers(c, args, argn, slot).Err? <==> NumbersRefused(args, argn, slot)
    decreases NumberSlots - slot
  {
    if slot == NumberSlots || argn == |args| {
    } else if args[argn].asNumber.NoNumber? {
    } else if !Acceptable(args[argn].asNumber, slot) {
      assert argn - argn == 0;
    } else {
      var c' := SetSlot(c, slot, args[argn].asNumber.value / 100.0);
      ReadNumbersRefuses(c', args, argn + 1, slot + 1);
      if NumbersRefused(args, argn + 1, slot + 1) {
        RefusedBehind(args, argn, slot);
      }
      if NumbersRefused(args, argn, slot) {
        RefusedAhead(args, argn, slot);
      }
    }
  }

  /** The checks on a frequency argument, in the order the source makes
      them: the frequency range (27.5 to 4220 Hz for pluck, non-negative
      otherwise), a sweep only on a tone, a non-negative end frequency, a
      duration with any sweep, nothing after the frequencies, and no zero
      endpoint for an exponential sweep. */
  function CheckFreq(kind: SynthType, sweep: SweepLaw, f: FreqToken, hasDuration: bool): (r: Result<(real, real, SweepLaw)>)
    ensures r.Ok? <==> FreqAcceptable(kind, sweep, f, hasDuration)
  {
    if f.freq < (if kind == Pluck then 27.5 else 0.0) || (kind == Pluck && f.freq > 4220.0) then
      Err(InvalidFreq)
    else if f.sweep.Some? && !IsTone(kind) then Err(CantSweep)
    else if f.sweep.Some? && f.freq2 < 0.0 then Err(InvalidFreq2)
    else if f.sweep.Some? && !hasDuration then Err(DurationRequired)
    else if f.trailing then Err(TrailingCharacter)
    else
      var law := if f.sweep.Some? then f.sweep.value else sweep;
      var f2 := if f.sweep.Some? then f.freq2 else f.freq;
      if IsExponential(law) && f.freq * f2 == 0.0 then Err(InvalidExpSweepFreq)
      else Ok((f.freq, f2, law))
  }

  /** The conditions under which a frequency argument is accepted, stated
      independently of their order. */
  predicate FreqAcceptable(kind: SynthType, sweep: SweepLaw, f: FreqToken, hasDuration: bool)
  {
    var f2 := if f.sweep.Some? then f.freq2 else f.freq;
    var law := if f.sweep.Some? then f.sweep.value else sweep;
    (if kind == Pluck then 27.5 <= f.freq <= 4220.0 else f.freq >= 0.0)
    && (f.sweep.Some? ==> IsTone(kind) && f2 >= 0.0 && hasDuration)
    && !f.trailing
    && !(IsExponential(law) && f.freq * f2 == 0.0)
  }

  /** Which check refuses a frequency is decided by the first failing one:
      a frequency out of range is reported as such whatever else is wrong,
      and a sweep on a noise before anything about its end frequency. */
  lemma CheckFreqOrder(kind: SynthType, sweep: SweepLaw, f: FreqToken, hasDuration: bool)
    ensures (f.freq < 0.0 || (kind == Pluck && !(27.5 <= f.freq <= 4220.0))) ==>
      CheckFreq(kind, sweep, f, hasDuration) == Err(InvalidFreq)
    ensures ((kind == Pluck ==> 27.5 <= f.freq <= 4220.0) && f.freq >= 0.0
      && f.sweep.Some? && !IsTone(kind)) ==>
      CheckFreq(kind, sweep, f, hasDuration) == Err(CantSweep)
  {
  }

  /** A channel as the options can leave it. */
  predicate WellFormed(c: Params, hasDuration: bool)
  {
    InRange(c)
    && c.freq >= 0.0 && c.freq2 >= 0.0
    && (c.kind == Pluck ==> 27.5 <= c.freq <= 4220.0)
    && (!IsTone(c.kind) ==> c.freq2 == c.freq && c.sweep == LinearSweep)
    && ((c.freq2 != c.freq || c.sweep != LinearSweep) ==> hasDuration)
    && (IsExponential(c.sweep) ==> c.freq * c.freq2 != 0.0)
  }

  /** The channel every channel starts from, before its own arguments. */
  predicate IsMaster(c: Params)
  {
    InRange(c) && c.freq == DefaultFreq && c.freq2 == DefaultFreq && c.sweep == LinearSweep
  }

  lemma MasterWellFormed(c: Params, kind: SynthType, combine: CombineMode, hasDuration: bool)
    requires IsMaster(c)
    ensures WellFormed(c.(kind := kind, combine := combine), hasDuration)
  {
  }

  /** The position of a channel's frequency argument, after its kind and
      its optional combine mode. */
  function FreqPos(args: seq<Arg>, argn: nat): (r: nat)
    ensures argn < r
  {
    if argn + 1 < |args| && args[argn + 1].combineName.Some? then argn + 2 else argn + 1
  }

  /** Whether the argument at pos is taken as a frequency: it exists,
      names no kind and does not start with '-'. */
  predicate HasFreqArg(args: seq<Arg>, pos: nat)
  {
    pos < |args| && args[pos].typeName.None? && !args[pos].startsWithDash
  }

  /** The position of a channel's first numeric parameter. */
  function NumbersPos(args: seq<Arg>, argn: nat): nat
  {
    var fp := FreqPos(args, argn);
    if HasFreqArg(args, fp) then fp + 1 else fp
  }

  /** The channel's frequency argument, if it has one, passes the checks. */
  predicate FreqPasses(kind: SynthType, master: Params, args: seq<Arg>, argn: nat, hasDuration: bool)
  {
    var fp := FreqPos(args, argn);
    HasFreqArg(args, fp) ==> FreqAcceptable(kind, master.sweep, args[fp].asFreq, hasDuration)
  }

  /** The text parsers never read a kind name as a number or as a combine
      mode. */
  predicate Classified(args: seq<Arg>)
  {
    forall i :: 0 <= i < |args| && args[i].typeName.Some? ==>
      args[i].asNumber.NoNumber? && args[i].combineName.None?
  }

  /** The numeric parameters play no part in a channel's frequency checks. */
  lemma WellFormedNumbers(head: Params, c: Params, hasDuration: bool)
    requires WellFormed(head, hasDuration) && InRange(c)
    requires c.kind == head.kind && c.freq == head.freq && c.freq2 == head.freq2 && c.sweep == head.sweep
    ensures WellFormed(c, hasDuration)
  {
  }

  /** The head of the channel whose kind argument argn names: a copy of the
      master with that kind, the combine mode the next argument names if it
      names one, and the checked frequencies of the frequency argument if
      there is one. Gives the position of the first numeric parameter. */
  function HeadOf(master: Params, args: seq<Arg>, argn: nat, hasDuration: bool): (r: Result<(Params, nat)>)
    requires argn < |args| && args[argn].typeName.Some?
    ensures r.Ok? <==> FreqPasses(args[argn].typeName.value, master, args, argn, hasDuration)
    ensures r.Err? ==>
      r.error == CheckFreq(args[argn].typeName.value, master.sweep, args[FreqPos(args, argn)].asFreq, hasDuration).error
    ensures r.Ok? ==> r.value.1 == NumbersPos(args, argn) && argn < r.value.1 <= |args|
  {
    var combine := if argn + 1 < |args| && args[argn + 1].combineName.Some?
      then args[argn + 1].combineName.value else master.combine;
    var c := master.(kind := args[argn].typeName.value, combine := combine);
    var fp := FreqPos(args, argn);
    if !HasFreqArg(args, fp) then Ok((c, fp))
    else match CheckFreq(c.kind, c.sweep, args[fp].asFreq, hasDuration)
      case Err(e) => Err(e)
      case Ok((f, f2, law)) => Ok((c.(freq := f, freq2 := f2, sweep := law), fp + 1))
  }

  /** The channel whose kind argument argn names: its head, then its
      numeric parameters. Gives the index of the first argument not read. */
  function ChannelOf(master: Params, args: seq<Arg>, argn: nat, hasDuration: bool): (r: Result<(Params, nat)>)
    requires argn < |args| && args[argn].typeName.Some?
    ensures r.Ok? ==> argn < r.value.1 <= |args|
  {
    match HeadOf(master, args, argn, hasDuration)
    case Err(e) => Err(e)
    case Ok((c, next)) => ReadNumbers(c, args, next, 0)
  }

  /** Why a parse fails at argument p: it names no kind where a channel
      starts; or it names a kind and the frequency argument is refused, with
      the error of the first failing check; or the frequency is accepted and
      one of the channel's numbers is refused. */
  predicate ChannelRefusal(master: Params, args: seq<Arg>, p: nat, hasDuration: bool, e: ConfigError)
    requires p < |args|
  {
    if args[p].typeName.None? then e == NoTypeGiven
    else if !FreqPasses(args[p].typeName.value, master, args, p, hasDuration) then
      e == CheckFreq(args[p].typeName.value, master.sweep, args[FreqPos(args, p)].asFreq, hasDuration).error
    else NumbersPos(args, p) < |args| && NumbersRefused(args, NumbersPos(args, p), 0) && e == ParameterError
  }

  /** A channel fails exactly when its frequency or one of its numbers is
      refused, and for that reason. */
  lemma ChannelOfRefuses(master: Params, args: seq<Arg>, argn: nat, hasDuration: bool)
    requires argn < |args| && args[argn].typeName.Some?
    ensures ChannelOf(master, args, argn, hasDuration).Err? <==>
      !FreqPasses(args[argn].typeName.value, master, args, argn, hasDuration)
      || (NumbersPos(args, argn) < |args| && NumbersRefused(args, NumbersPos(args, argn), 0))
    ensures ChannelOf(master, args, argn, hasDuration).Err? ==>
      ChannelRefusal(master, args, argn, hasDuration, ChannelOf(master, args, argn, hasDuration).error)
  {
    var h := HeadOf(master, args, argn, hasDuration);
    if h.Ok? {
      ReadNumbersRefuses(h.value.0, args, h.value.1, 0);
    }
  }

  /** Under Classified, no argument a channel reads after its kind names a
      kind. */
  lemma ChannelOfSpan(master: Params, args: seq<Arg>, argn: nat, hasDuration: bool)
    requires argn < |args| && args[argn].typeName.Some? && Classified(args)
    requires ChannelOf(master, args, argn, hasDuration).Ok?
    ensures forall k :: argn < k < ChannelOf(master, args, argn, hasDuration).value.1 ==> args[k].typeName.None?
  {
    var (c, next) := HeadOf(master, args, argn, hasDuration).value;
    ReadNumbersReads(c, args, next, 0);
    var r := ReadNumbers(c, args, next, 0).value;
    NumbersReadUntyped(c, r.0, args, next, r.1, 0);
  }

  /** Reads the head of one channel from argument argn on, which names its
      kind: an optional combine mode and an optional frequency (an argument
      that neither names a kind nor starts with '-'), on top of a copy of the
      master. Returns the channel and the position of its first numeric
      parameter. */
  method ChannelHead(master: Params, args: seq<Arg>, argn: nat, hasDuration: bool) returns (r: Result<(Params, nat)>)
    requires IsMaster(master) && argn < |args| && args[argn].typeName.Some?
    ensures r == HeadOf(master, args, argn, hasDuration)
    ensures r.Ok? <==> FreqPasses(args[argn].typeName.value, master, args, argn, hasDuration)
    ensures r.Err? ==>
      r.error == CheckFreq(args[argn].typeName.value, master.sweep, args[FreqPos(args, argn)].asFreq, hasDuration).error
    ensures r.Ok? ==> r.value.1 == NumbersPos(args, argn)
    ensures r.Ok? ==> WellFormed(r.value.0, hasDuration) && r.value.0.kind == args[argn].typeName.value
    ensures r.Ok? ==> r.value.0.combine == (if argn + 1 < |args| && args[argn + 1].combineName.Some?
      then args[argn + 1].combineName.value else master.combine)
    ensures r.Ok? && HasFreqArg(args, FreqPos(args, argn)) ==>
      (r.value.0.freq, r.value.0.freq2, r.value.0.sweep)
        == CheckFreq(args[argn].typeName.value, master.sweep, args[FreqPos(args, argn)].asFreq, hasDuration).value
    ensures r.Ok? && !HasFreqArg(args, FreqPos(args, argn)) ==>
      r.value.0.freq == master.freq && r.value.0.freq2 == master.freq2 && r.value.0.sweep == master.sweep
    ensures r.Ok? ==> forall s :: 0 <= s < NumberSlots ==> Slot(r.value.0, s) == Slot(master, s)
    ensures r.Ok? && Classified(args) ==> forall k :: argn < k < r.value.1 ==> args[k].typeName.None?
  {
    var c := master.(kind := args[argn].typeName.value);
    MasterWellFormed(master, c.kind, c.combine, hasDuration);
    var next := argn + 1;
    if next < |args| && args[next].combineName.Some? {
      c := c.(combine := args[next].combineName.value);
      next := next + 1;
    }
    assert next == FreqPos(args, argn);
    if next < |args| && args[next].typeName.None? && !args[next].startsWithDash {
      var checked := CheckFreq(c.kind, c.sweep, args[next].asFreq, hasDuration);
      if checked.Err? {
        return Err(checked.error);
      }
      c := c.(freq := checked.value.0, freq2 := checked.value.1, sweep := checked.value.2);
      next := next + 1;
    }
    return Ok((c, next));
  }

  /** Reads one channel from argument argn on: its head, then its numeric
      parameters. Returns the channel and the index of the first argument
      not read. */
  method ParseChannel(master: Params, args: seq<Arg>, argn: nat, hasDuration: bool) returns (r: Result<(Params, nat)>)
    requires IsMaster(master) && argn < |args| && args[argn].typeName.Some?
    ensures r == ChannelOf(master, args, argn, hasDuration)
    ensures r.Ok? ==> WellFormed(r.value.0, hasDuration) && r.value.0.kind == args[argn].typeName.value
    ensures r.Ok? ==> r.value.0.combine == (if argn + 1 < |args| && args[argn + 1].combineName.Some?
      then args[argn + 1].combineName.value else master.combine)
    // a refused frequency gives the error of the first check it fails
    ensures !FreqPasses(args[argn].typeName.value, master, args, argn, hasDuration) ==>
      r == Err(CheckFreq(args[argn].typeName.value, master.sweep, args[FreqPos(args, argn)].asFreq, hasDuration).error)
    ensures r.Ok? && HasFreqArg(args, FreqPos(args, argn)) ==>
      (r.value.0.freq, r.value.0.freq2, r.value.0.sweep)
        == CheckFreq(args[argn].typeName.value, master.sweep, args[FreqPos(args, argn)].asFreq, hasDuration).value
    ensures r.Ok? && !HasFreqArg(args, FreqPos(args, argn)) ==>
      r.value.0.freq == master.freq && r.value.0.freq2 == master.freq2 && r.value.0.sweep == master.sweep
    // with the frequency accepted, only a refused number fails
    ensures FreqPasses(args[argn].typeName.value, master, args, argn, hasDuration) ==>
      (r.Err? <==> NumbersPos(args, argn) < |args| && NumbersRefused(args, NumbersPos(args, argn), 0))
    ensures FreqPasses(args[argn].typeName.value, master, args, argn, hasDuration) && r.Err? ==>
      r.error == ParameterError
    ensures r.Ok? ==> NumbersRead(master, r.value.0, args, NumbersPos(args, argn), r.value.1, 0)
    // no argument read after the kind names a kind
    ensures r.Ok? && Classified(args) ==> argn < r.value.1 && forall k :: argn < k < r.value.1 ==> args[k].typeName.None?
  {
    var head := ChannelHead(master, args, argn, hasDuration);
    if head.Err? {
      return Err(head.error);
    }
    var c, next := head.value.0, head.value.1;
    ghost var numbersPos := next;
    if next < |args| {
      var read := ReadNumbers(c, args, next, 0);
      ReadNumbersRefuses(c, args, next, 0);
      if read.Err? {
        return Err(read.error);
      }
      ReadNumbersReads(c, args, next, 0);
      c, next := read.value.0, read.value.1;
      WellFormedNumbers(head.value.0, c, hasDuration);
    }
    assert NumbersRead(head.value.0, c, args, numbersPos, next, 0);
    NumbersReadRebase(master, head.value.0, c, args, numbersPos, next, 0);
    if Classified(args) {
      NumbersReadUntyped(master, c, args, numbersPos, next, 0);
    }
    return Ok((c, next));
  }

  /** The kinds named by the arguments, in order. */
  function TypeNames(args: seq<Arg>): (r: seq<SynthType>)
    ensures |r| <= |args|
  {
    if args == [] then []
    else
      var last := args[|args| - 1];
      TypeNames(args[..|args| - 1]) + (if last.typeName.Some? then [last.typeName.value] else [])
  }

  lemma TypeNamesOne(xs: seq<Arg>, a: Arg)
    ensures TypeNames(xs + [a]) == TypeNames(xs) + (if a.typeName.Some? then [a.typeName.value] else [])
  {
    assert (xs + [a])[..|xs|] == xs;
  }

  /** Arguments naming no kind add nothing to the kinds named. */
  lemma {:induction false} TypeNamesUntyped(xs: seq<Arg>, ys: seq<Arg>)
    requires forall i :: 0 <= i < |ys| ==> ys[i].typeName.None?
    ensures TypeNames(xs + ys) == TypeNames(xs)
    decreases |ys|
  {
    if ys == [] {
      assert xs + ys == xs;
    } else {
      var init := ys[..|ys| - 1];
      TypeNamesUntyped(xs, init);
      assert xs + ys == (xs + init) + [ys[|ys| - 1]];
      TypeNamesOne(xs + init, ys[|ys| - 1]);
    }
  }

  /** A channel read from argn to next adds the kind it names. */
  lemma TypeNamesChannel(args: seq<Arg>, argn: nat, next: nat)
    requires argn < next <= |args| && args[argn].typeName.Some?
    requires forall k :: argn < k < next ==> args[k].typeName.None?
    ensures TypeNames(args[..next]) == TypeNames(args[..argn]) + [args[argn].typeName.value]
  {
    PrefixSplit(args, argn, next);
    TypeNamesOne(args[..argn], args[argn]);
    TypeNamesUntyped(args[..argn] + [args[argn]], args[argn + 1..next]);
  }

  lemma AppendWellFormed(channels: seq<Params>, c: Params, hasDuration: bool)
    requires forall i :: 0 <= i < |channels| ==> WellFormed(channels[i], hasDuration)
    requires WellFormed(c, hasDuration)
    ensures forall i :: 0 <= i < |channels + [c]| ==> WellFormed((channels + [c])[i], hasDuration)
  {
  }

  lemma PrefixSplit(args: seq<Arg>, i: nat, j: nat)
    requires i < j <= |args|
    ensures args[..j] == (args[..i] + [args[i]]) + args[i + 1..j]
  {
  }

  /** The master read from the first arguments is a master channel, and
      the arguments it took name no kind. */
  lemma MasterRead(args: seq<Arg>)
    requires ReadNumbers(CreateChannel(), args, 0, 0).Ok?
    ensures IsMaster(ReadNumbers(CreateChannel(), args, 0, 0).value.0)
    ensures Classified(args) ==> TypeNames(args[..ReadNumbers(CreateChannel(), args, 0, 0).value.1]) == []
  {
    var (master, m) := ReadNumbers(CreateChannel(), args, 0, 0).value;
    ReadNumbersReads(CreateChannel(), args, 0, 0);
    if Classified(args) {
      NumbersReadUntyped(CreateChannel(), master, args, 0, m, 0);
      TypeNamesUntyped([], args[..m]);
      assert [] + args[..m] == args[..m];
    }
  }

  /** The channels cs in front of a parse result. */
  function Prepend(cs: seq<Params>, r: Result<seq<Params>>): Result<seq<Params>>
  {
    if r.Ok? then Ok(cs + r.value) else r
  }

  /** Channel after channel from argument argn on, each starting at the
      argument naming its kind, up to the end of the arguments; the first
      refusal ends the parse. */
  function ChannelsOf(master: Params, args: seq<Arg>, argn: nat, hasDuration: bool): Result<seq<Params>>
    requires argn <= |args|
    decreases |args| - argn
  {
    if argn == |args| then Ok([])
    else if args[argn].typeName.None? then Err(NoTypeGiven)
    else match ChannelOf(master, args, argn, hasDuration)
      case Err(e) => Err(e)
      case Ok((c, next)) => Prepend([c], ChannelsOf(master, args, next, hasDuration))
  }

  /** A parse must start at an argument naming a kind, and gives no channel
      only when no argument is left. */
  lemma ChannelsOfStart(master: Params, args: seq<Arg>, from: nat, hasDuration: bool)
    requires from <= |args|
    ensures from < |args| && args[from].typeName.None? ==> ChannelsOf(master, args, from, hasDuration) == Err(NoTypeGiven)
    ensures ChannelsOf(master, args, from, hasDuration).Ok? ==>
      (ChannelsOf(master, args, from, hasDuration).value == [] <==> from == |args|)
  {
  }

  /** The positions, from argument from on, of the arguments naming a kind,
      in order. */
  function KindPositions(args: seq<Arg>, from: nat): (r: seq<nat>)
    requires from <= |args|
    ensures forall i :: 0 <= i < |r| ==> from <= r[i] < |args| && args[r[i]].typeName.Some?
    ensures forall k :: from <= k < |args| && args[k].typeName.Some? ==> k in r
    decreases |args| - from
  {
    if from == |args| then []
    else (if args[from].typeName.Some? then [from] else []) + KindPositions(args, from + 1)
  }

  /** Arguments naming no kind hold no kind position. */
  lemma {:induction false} KindPositionsSkip(args: seq<Arg>, from: nat, to: nat)
    requires from <= to <= |args|
    requires forall k :: from <= k < to ==> args[k].typeName.None?
    ensures KindPositions(args, from) == KindPositions(args, to)
    decreases |args| - from
  {
    if from < to {
      KindPositionsSkip(args, from + 1, to);
    }
  }

  /** The first argument from from on that names a kind, or the end of the
      arguments. */
  function NextKind(args: seq<Arg>, from: nat): (r: nat)
    requires from <= |args|
    ensures from <= r <= |args|
    ensures r < |args| ==> args[r].typeName.Some?
    ensures forall k :: from <= k < r ==> args[k].typeName.None?
    decreases |args| - from
  {
    if from == |args| || args[from].typeName.Some? then from else NextKind(args, from + 1)
  }

  /** The channels chain from argument from on: a kind is named right at
      from (or no argument is left), and every channel read where a kind is
      named is accepted and ends exactly where the next kind is named, the
      last at the end of the arguments. */
  predicate Chained(master: Params, args: seq<Arg>, from: nat, hasDuration: bool)
    requires from <= |args|
  {
    NextKind(args, from) == from
    && forall p {:trigger ChannelOf(master, args, p, hasDuration)} ::
         from <= p < |args| && args[p].typeName.Some? ==>
           ChannelOf(master, args, p, hasDuration).Ok?
           && ChannelOf(master, args, p, hasDuration).value.1 == NextKind(args, p + 1)
  }

  /** NextKind skips arguments naming no kind. */
  lemma {:induction false} NextKindSkip(args: seq<Arg>, from: nat, to: nat)
    requires from <= to <= |args|
    requires forall k :: from <= k < to ==> args[k].typeName.None?
    ensures NextKind(args, from) == NextKind(args, to)
    decreases |args| - from
  {
    if from < to {
      NextKindSkip(args, from + 1, to);
    }
  }

  /** One channel read at from, ending at next, chains the rest. */
  lemma ChainedStep(master: Params, args: seq<Arg>, from: nat, next: nat, hasDuration: bool)
    requires from < |args| && args[from].typeName.Some?
    requires ChannelOf(master, args, from, hasDuration).Ok? && ChannelOf(master, args, from, hasDuration).value.1 == next
    requires forall k :: from < k < next ==> args[k].typeName.None?
    ensures Chained(master, args, from, hasDuration) <==> Chained(master, args, next, hasDuration)
  {
    NextKindSkip(args, from + 1, next);
    if Chained(master, args, next, hasDuration) {
      forall p | from <= p < |args| && args[p].typeName.Some?
        ensures ChannelOf(master, args, p, hasDuration).Ok?
          && ChannelOf(master, args, p, hasDuration).value.1 == NextKind(args, p + 1)
      {
        if p != from {
          assert next <= p;
        }
      }
    }
  }

  /** Under Classified, the parse from argument from succeeds exactly when
      the channels chain from one kind named to the next. */
  lemma {:induction false} ChannelsOfChained(master: Params, args: seq<Arg>, from: nat, hasDuration: bool)
    requires from <= |args| && Classified(args)
    ensures ChannelsOf(master, args, from, hasDuration).Ok? <==> Chained(master, args, from, hasDuration)
    decreases |args| - from
  {
    if from < |args| && args[from].typeName.Some? {
      var ch := ChannelOf(master, args, from, hasDuration);
      if ch.Ok? {
        ChannelOfSpan(master, args, from, hasDuration);
        ChainedStep(master, args, from, ch.value.1, hasDuration);
        ChannelsOfChained(master, args, ch.value.1, hasDuration);
      }
    }
  }

  /** Channel i of cs is the channel read at position ps[i], for every i. */
  predicate ReadAt(master: Params, args: seq<Arg>, cs: seq<Params>, ps: seq<nat>, hasDuration: bool)
  {
    |cs| == |ps|
    && forall i :: 0 <= i < |cs| ==>
         ps[i] < |args| && args[ps[i]].typeName.Some?
         && ChannelOf(master, args, ps[i], hasDuration).Ok? && cs[i] == ChannelOf(master, args, ps[i], hasDuration).value.0
  }

  lemma ReadAtCons(master: Params, args: seq<Arg>, cs: seq<Params>, ps: seq<nat>, p: nat, hasDuration: bool)
    requires ReadAt(master, args, cs, ps, hasDuration)
    requires p < |args| && args[p].typeName.Some? && ChannelOf(master, args, p, hasDuration).Ok?
    ensures ReadAt(master, args, [ChannelOf(master, args, p, hasDuration).value.0] + cs, [p] + ps, hasDuration)
  {
    var c := ChannelOf(master, args, p, hasDuration).value.0;
    forall i | 0 < i < |cs| + 1
      ensures ([c] + cs)[i] == cs[i - 1] && ([p] + ps)[i] == ps[i - 1]
    {
    }
  }

  /** Under Classified, the kinds named from a channel's kind argument on
      are its own and those from where it ends. */
  lemma KindPositionsChannel(master: Params, args: seq<Arg>, from: nat, hasDuration: bool)
    requires from < |args| && args[from].typeName.Some? && Classified(args)
    requires ChannelOf(master, args, from, hasDuration).Ok?
    ensures KindPositions(args, from) == [from] + KindPositions(args, ChannelOf(master, args, from, hasDuration).value.1)
  {
    ChannelOfSpan(master, args, from, hasDuration);
    KindPositionsSkip(args, from + 1, ChannelOf(master, args, from, hasDuration).value.1);
  }

  /** Under Classified, a successful parse from argument from holds one
      channel per kind named, the one read at that kind's position. */
  lemma {:induction false} ChannelsOfAtKinds(master: Params, args: seq<Arg>, from: nat, hasDuration: bool)
    requires from <= |args| && Classified(args)
    requires ChannelsOf(master, args, from, hasDuration).Ok?
    ensures ReadAt(master, args, ChannelsOf(master, args, from, hasDuration).value, KindPositions(args, from), hasDuration)
    decreases |args| - from
  {
    if from < |args| {
      var (c, next) := ChannelOf(master, args, from, hasDuration).value;
      KindPositionsChannel(master, args, from, hasDuration);
      var rest := ChannelsOf(master, args, next, hasDuration);
      assert ChannelsOf(master, args, from, hasDuration) == Prepend([c], rest);
      ChannelsOfAtKinds(master, args, next, hasDuration);
      ReadAtCons(master, args, rest.value, KindPositions(args, next), from, hasDuration);
    }
  }

  /** Reading one more channel moves it from the parse still to come to
      the channels read. */
  lemma ChannelsOfStep(master: Params, args: seq<Arg>, argn: nat, hasDuration: bool, channels: seq<Params>)
    requires argn < |args| && args[argn].typeName.Some? && ChannelOf(master, args, argn, hasDuration).Ok?
    ensures var (c, next) := ChannelOf(master, args, argn, hasDuration).value;
      Prepend(channels, ChannelsOf(master, args, argn, hasDuration))
        == Prepend(channels + [c], ChannelsOf(master, args, next, hasDuration))
  {
    var (c, next) := ChannelOf(master, args, argn, hasDuration).value;
    var rest := ChannelsOf(master, args, next, hasDuration);
    if rest.Ok? {
      assert channels + ([c] + rest.value) == (channels + [c]) + rest.value;
    }
  }

  /** The kinds of channels, in order. */
  function Kinds(cs: seq<Params>): (r: seq<SynthType>)
    ensures |r| == |cs| && forall i :: 0 <= i < |cs| ==> r[i] == cs[i].kind
  {
    if cs == [] then [] else [cs[0].kind] + Kinds(cs[1..])
  }

  lemma KindsCons(c: Params, cs: seq<Params>)
    ensures Kinds([c] + cs) == [c.kind] + Kinds(cs)
  {
    assert ([c] + cs)[1..] == cs;
  }

  /** A channel of the kind named at from, read up to next, puts that kind
      in front of the kinds named from next on. */
  lemma KindsStep(args: seq<Arg>, from: nat, next: nat, c: Params, rest: seq<Params>)
    requires from < next <= |args| && args[from].typeName.Some? && c.kind == args[from].typeName.value
    requires forall k :: from < k < next ==> args[k].typeName.None?
    requires TypeNames(args) == TypeNames(args[..next]) + Kinds(rest)
    ensures TypeNames(args) == TypeNames(args[..from]) + Kinds([c] + rest)
  {
    TypeNamesChannel(args, from, next);
    KindsCons(c, rest);
    SeqAssoc(TypeNames(args[..from]), [c.kind], Kinds(rest));
  }

  lemma SeqAssoc<T>(a: seq<T>, b: seq<T>, c: seq<T>)
    ensures (a + b) + c == a + (b + c)
  {
  }

  /** A channel has the kind its first argument names. */
  lemma ChannelOfKind(master: Params, args: seq<Arg>, argn: nat, hasDuration: bool)
    requires argn < |args| && args[argn].typeName.Some?
    ensures ChannelOf(master, args, argn, hasDuration).Ok? ==>
      ChannelOf(master, args, argn, hasDuration).value.0.kind == args[argn].typeName.value
  {
  }

  /** Under Classified, the channels of a successful parse from argument
      from have the kinds named from there on, in order. */
  lemma {:induction false} ChannelsOfKinds(master: Params, args: seq<Arg>, from: nat, hasDuration: bool)
    requires from <= |args| && Classified(args)
    requires ChannelsOf(master, args, from, hasDuration).Ok?
    ensures TypeNames(args) == TypeNames(args[..from]) + Kinds(ChannelsOf(master, args, from, hasDuration).value)
    decreases |args| - from
  {
    if from == |args| {
      assert args[..from] == args;
    } else {
      var (c, next) := ChannelOf(master, args, from, hasDuration).value;
      ChannelOfKind(master, args, from, hasDuration);
      ChannelOfSpan(master, args, from, hasDuration);
      var rest := ChannelsOf(master, args, next, hasDuration);
      assert ChannelsOf(master, args, from, hasDuration).value == [c] + rest.value;
      ChannelsOfKinds(master, args, next, hasDuration);
      KindsStep(args, from, next, c, rest.value);
    }
  }

  /** A failed parse names the argument that refuses it. */
  lemma {:induction false} ChannelsOfRefusal(master: Params, args: seq<Arg>, from: nat, hasDuration: bool)
    requires from <= |args| && ChannelsOf(master, args, from, hasDuration).Err?
    ensures exists p ::
      from <= p < |args| && ChannelRefusal(master, args, p, hasDuration, ChannelsOf(master, args, from, hasDuration).error)
    decreases |args| - from
  {
    if args[from].typeName.None? {
      assert ChannelRefusal(master, args, from, hasDuration, NoTypeGiven);
    } else if ChannelOf(master, args, from, hasDuration).Err? {
      ChannelOfRefuses(master, args, from, hasDuration);
    } else {
      ChannelsOfRefusal(master, args, ChannelOf(master, args, from, hasDuration).value.1, hasDuration);
    }
  }

  /** Reads channel after channel from argument start on, each starting
      with the name of its kind and each on top of a copy of master. */
  method ParseChannels(master: Params, args: seq<Arg>, start: nat, hasDuration: bool) returns (r: Result<seq<Params>>)
    requires IsMaster(master) && start <= |args|
    ensures r == ChannelsOf(master, args, start, hasDuration)
    ensures r.Ok? ==> forall i :: 0 <= i < |r.value| ==> WellFormed(r.value[i], hasDuration)
    ensures start < |args| && args[start].typeName.None? ==> r == Err(NoTypeGiven)
    ensures r.Ok? ==> (r.value == [] <==> start == |args|)
    // one channel per kind named, in order
    ensures r.Ok? && Classified(args) && TypeNames(args[..start]) == [] ==>
      |r.value| == |TypeNames(args)| && forall i :: 0 <= i < |r.value| ==> r.value[i].kind == TypeNames(args)[i]
  {
    ChannelsOfStart(master, args, start, hasDuration);
    if Classified(args) && ChannelsOf(master, args, start, hasDuration).Ok? {
      ChannelsOfKinds(master, args, start, hasDuration);
    }
    var argn := start;
    var channels: seq<Params> := [];
    assert ChannelsOf(master, args, start, hasDuration).Ok? ==>
      channels + ChannelsOf(master, args, start, hasDuration).value == ChannelsOf(master, args, start, hasDuration).value;
    while argn < |args|
      invariant start <= argn <= |args|
      invariant forall i :: 0 <= i < |channels| ==> WellFormed(channels[i], hasDuration)
      invariant ChannelsOf(master, args, start, hasDuration) == Prepend(channels, ChannelsOf(master, args, argn, hasDuration))
      decreases |args| - argn
    {
      if args[argn].typeName.None? {
        return Err(NoTypeGiven);
      }
      var parsed := ParseChannel(master, args, argn, hasDuration);
      if parsed.Err? {
        return Err(parsed.error);
      }
      ChannelsOfStep(master, args, argn, hasDuration, channels);
      AppendWellFormed(channels, parsed.value.0, hasDuration);
      channels := channels + [parsed.value.0];
      argn := parsed.value.1;
    }
    assert channels + [] == channels;
    return Ok(channels);
  }

  /** The whole parse: the master's numbers from the first argument on, then
      the channels on top of it; with no channel given, the master alone. */
  function ArgsOf(args: seq<Arg>, hasDuration: bool): Result<seq<Params>>
  {
    match ReadNumbers(CreateChannel(), args, 0, 0)
    case Err(e) => Err(e)
    case Ok((master, m)) =>
      match ChannelsOf(master, args, m, hasDuration)
      case Err(e) => Err(e)
      case Ok(cs) => Ok(if cs == [] then [master] else cs)
  }

  /** A failed parse is refused by a master number, or names the argument
      that refuses it. */
  lemma ArgsOfRefusal(args: seq<Arg>, hasDuration: bool)
    requires ArgsOf(args, hasDuration).Err?
    ensures var e := ArgsOf(args, hasDuration).error;
      (NumbersRefused(args, 0, 0) && e == ParameterError)
      || (ReadNumbers(CreateChannel(), args, 0, 0).Ok?
          && var (master, m) := ReadNumbers(CreateChannel(), args, 0, 0).value;
          exists p :: m <= p < |args| && ChannelRefusal(master, args, p, hasDuration, e))
  {
    ReadNumbersRefuses(CreateChannel(), args, 0, 0);
    var read := ReadNumbers(CreateChannel(), args, 0, 0);
    if read.Ok? {
      ChannelsOfRefusal(read.value.0, args, read.value.1, hasDuration);
    }
  }

  /** Under Classified, the parse succeeds exactly when the master's numbers
      are accepted and the channels chain from where they end; the result
      is the master alone when no kind is named after it, and otherwise one
      channel per kind named, the one read at that kind's position. */
  lemma ArgsOfAtKinds(args: seq<Arg>, hasDuration: bool)
    requires Classified(args)
    ensures ArgsOf(args, hasDuration).Ok? <==>
      ReadNumbers(CreateChannel(), args, 0, 0).Ok?
      && Chained(ReadNumbers(CreateChannel(), args, 0, 0).value.0, args, ReadNumbers(CreateChannel(), args, 0, 0).value.1, hasDuration)
    ensures ArgsOf(args, hasDuration).Ok? ==>
      var (master, m) := ReadNumbers(CreateChannel(), args, 0, 0).value;
      var ps := KindPositions(args, m);
      (ps == [] ==> ArgsOf(args, hasDuration).value == [master])
      && (ps != [] ==> ReadAt(master, args, ArgsOf(args, hasDuration).value, ps, hasDuration))
  {
    var read := ReadNumbers(CreateChannel(), args, 0, 0);
    if read.Ok? {
      var (master, m) := read.value;
      ChannelsOfChained(master, args, m, hasDuration);
      if ChannelsOf(master, args, m, hasDuration).Ok? {
        ChannelsOfAtKinds(master, args, m, hasDuration);
      }
    }
  }

  /** Reads all arguments: the numeric parameters of the master channel,
      then the channels. With no channel given, the master alone is the
      result. */
  method ParseArgs(args: seq<Arg>, hasDuration: bool) returns (r: Result<seq<Params>>)
    ensures r == ArgsOf(args, hasDuration)
    // no arguments at all: a single default sine
    ensures args == [] ==> r == Ok([CreateChannel()])
    ensures r.Ok? ==> |r.value| >= 1
    ensures r.Ok? ==> forall i :: 0 <= i < |r.value| ==> WellFormed(r.value[i], hasDuration)
    // the master's numbers come first; one it refuses fails the whole
    ensures NumbersRefused(args, 0, 0) ==> r == Err(ParameterError)
    // the first argument after them must name a kind
    ensures ReadNumbers(CreateChannel(), args, 0, 0).Ok? ==>
      var m := ReadNumbers(CreateChannel(), args, 0, 0).value.1;
      m < |args| && args[m].typeName.None? ==> r == Err(NoTypeGiven)
    ensures |args| > 0 && args[0].typeName.None? && args[0].asNumber.NoNumber? ==> r == Err(NoTypeGiven)
    // with no kind named, the result is the master alone, read from all arguments
    ensures r.Ok? && (forall i :: 0 <= i < |args| ==> args[i].typeName.None?) ==>
      |r.value| == 1 && r.value[0].kind == Sine
      && ReadNumbers(CreateChannel(), args, 0, 0).Ok?
      && ReadNumbers(CreateChannel(), args, 0, 0).value.0 == r.value[0]
      && ReadNumbers(CreateChannel(), args, 0, 0).value.1 == |args|
    // otherwise one channel per kind named, in order
    ensures r.Ok? && Classified(args) && TypeNames(args) != [] ==>
      |r.value| == |TypeNames(args)| && forall i :: 0 <= i < |r.value| ==> r.value[i].kind == TypeNames(args)[i]
  {
    var master := CreateChannel();
    var argn := 0;
    ReadNumbersRefuses(master, args, 0, 0);
    if argn < |args| {
      var read := ReadNumbers(master, args, argn, 0);
      if read.Err? {
        return Err(read.error);
      }
      master, argn := read.value.0, read.value.1;
    }
    MasterRead(args);
    var channels := ParseChannels(master, args, argn, hasDuration);
    if channels.Err? {
      return channels;
    }
    if channels.value == [] {
      return Ok([master]);
    }
    return channels;
  }
}
