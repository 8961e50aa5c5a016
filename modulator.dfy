/*
 * The ring modulator. A 24-bit fixed-point phase accumulator advances by
 * `step` per sample; each of the four effect channels is high-pass
 * filtered, multiplied by the waveform at the phase, and mixed into the
 * output channels with one gated gain per (effect channel, output
 * channel) pair. Every effect channel of a chunk starts from the same
 * phase; the stored phase advances once per sample after the chunk.
 *
 * `x & (2^24 - 1)` is modelled as the Euclidean `x % 2^24`. The sine
 * waveform and the filter constant are trigonometric and are taken as
 * inputs, as is the step, which the source truncates from a float.
 */
module Modulator {
  import opened Alu
  import opened Mixing
  import opened Biquad
  import opened Modular

  const FracBits: nat := 24
  /** One full waveform period in phase units, 1 << FracBits. */
  const FracOne: int := 0x100_0000
  /** Bit FracBits - 1: the upper half of the period. */
  const HalfPeriod: int := 0x80_0000

  /** Effect channels an effect processes (MAX_EFFECT_CHANNELS; its value
    * comes from a header that is not part of this model). */
  const MaxEffectChannels: nat := 4

  /** The waveform codes of the EFX ring-modulator properties. */
  const RingModulatorSinusoid: int := 0
  const RingModulatorSawtooth: int := 1

  datatype Waveform = Sinusoid | Sawtooth | Square

  datatype Option<T> = None | Some(value: T)

  // ---------------------------------------------------------------------
  // Waveforms and the phase accumulator

  /** SINUSOID selects the sine, SAWTOOTH the saw, any other code the
    * square. */
  function SelectWaveform(code: int): (w: Waveform)
    ensures w == Sinusoid <==> code == RingModulatorSinusoid
    ensures w == Sawtooth <==> code == RingModulatorSawtooth
    ensures w == Square <==> code != RingModulatorSinusoid && code != RingModulatorSawtooth
  {
    if code == RingModulatorSinusoid then Sinusoid
    else if code == RingModulatorSawtooth then Sawtooth
    else Square
  }

  /** The sawtooth: the phase as a fraction of the period. */
  function SawFunc(index: int): (r: real)
    ensures r * FracOne as real == index as real
    ensures 0 <= index < FracOne ==> 0.0 <= r < 1.0
  {
    index as real / FracOne as real
  }

  /** The square wave: bit FracBits - 1 of the phase. */
  function SquareFunc(index: int): (r: real)
    ensures r == 0.0 || r == 1.0
  {
    ((index / HalfPeriod) % 2) as real
  }

  /** Over one period the square wave is 0 in the lower half and 1 in the
    * upper half. */
  lemma SquareIsUpperHalf(index: int)
    requires 0 <= index < FracOne
    ensures SquareFunc(index) == 1.0 <==> index >= HalfPeriod
  {
    if index < HalfPeriod {
      assert index / HalfPeriod == 0;
    } else {
      assert index == 1 * HalfPeriod + (index - HalfPeriod);
      assert index / HalfPeriod == 1;
    }
  }

  /** What a waveform gives at a phase; the sine is computed outside this
    * model and passed in as `sinFunc`. */
  datatype Modulation = Modulation(waveform: Waveform, sinFunc: int -> real, step: int)

  function Wave(m: Modulation, index: int): real {
    match m.waveform
    case Sinusoid => m.sinFunc(index)
    case Sawtooth => SawFunc(index)
    case Square => SquareFunc(index)
  }

  /** A sample multiplied by the waveform value. */
  function Ring(v: real, wave: real): real {
    v * wave
  }

  /** The phase after `n` advances of `step` from `index`, each reduced
    * modulo the period. */
  function Phase(index: int, step: int, n: nat): (r: int)
    decreases n
    ensures n > 0 ==> 0 <= r < FracOne
  {
    if n == 0 then index else (Phase(index, step, n - 1) + step) % FracOne
  }

  /** The closed form: n advances add n * step, modulo the period. */
  lemma {:induction false} PhaseClosed(index: int, step: int, n: nat)
    requires n > 0 || 0 <= index < FracOne
    ensures Phase(index, step, n) == (index + n * step) % FracOne
    decreases n
  {
    if n == 0 {
      ModInRange(index, FracOne);
    } else if n == 1 {
      assert index + n * step == index + step;
    } else {
      PhaseClosed(index, step, n - 1);
      ModAddMod(index + (n - 1) * step, step, FracOne);
      assert index + (n - 1) * step + step == index + n * step;
    }
  }

  /** Advancing a advances and then b advances is advancing a + b. */
  lemma {:induction false} PhaseCompose(index: int, step: int, a: nat, b: nat)
    ensures Phase(Phase(index, step, a), step, b) == Phase(index, step, a + b)
    decreases b
  {
    if b > 0 {
      PhaseCompose(index, step, a, b - 1);
      assert a + b - 1 == a + (b - 1);
    }
  }

  /** After the first advance the phase repeats every FracOne samples. */
  lemma PhasePeriodic(index: int, step: int, n: nat)
    requires n > 0
    ensures Phase(index, step, n + FracOne) == Phase(index, step, n)
  {
    PhaseClosed(index, step, n);
    PhaseClosed(index, step, n + FracOne);
    assert index + (n + FracOne) * step == (index + n * step) + step * FracOne;
    ModAddMultiple(index + n * step, step, FracOne);
  }

  // ---------------------------------------------------------------------
  // What a block computes

  /** Sample i of effect channel input `s` after the channel's filter,
    * started in `f`, and the modulation started at phase `index`. The
    * phase is advanced before each sample, so sample i uses phase
    * advance i + 1. */
  function ModulatedAt(m: Modulation, f: FilterState, s: seq<real>, index: int, i: nat): real
    requires i < |s|
  {
    Ring(Filtered(f, s, i), Wave(m, Phase(index, m.step, i + 1)))
  }

  predicate Shaped(filters: seq<FilterState>, src: seq<seq<real>>, gains: seq<seq<real>>, n: nat, channelCount: nat) {
    |filters| == MaxEffectChannels && |src| >= MaxEffectChannels && |gains| == MaxEffectChannels
    && forall j :: 0 <= j < MaxEffectChannels ==> n <= |src[j]| && channelCount <= |gains[j]|
  }

  /** What the first `k` effect channels add to output channel c at
    * sample i, each through its own gated gain. */
  function MixedAt(m: Modulation, filters: seq<FilterState>, src: seq<seq<real>>, gains: seq<seq<real>>,
                   index: int, c: nat, i: nat, k: nat): real
    requires Shaped(filters, src, gains, i + 1, c + 1) && k <= MaxEffectChannels
    decreases k
  {
    if k == 0 then 0.0
    else MixedAt(m, filters, src, gains, index, c, i, k - 1)
         + Contribution(gains[k - 1][c], ModulatedAt(m, filters[k - 1], src[k - 1], index, i))
  }

  lemma MixedAtNext(m: Modulation, filters: seq<FilterState>, src: seq<seq<real>>, gains: seq<seq<real>>,
                    index: int, c: nat, i: nat, k: nat)
    requires Shaped(filters, src, gains, i + 1, c + 1) && k < MaxEffectChannels
    ensures MixedAt(m, filters, src, gains, index, c, i, k + 1)
      == MixedAt(m, filters, src, gains, index, c, i, k)
         + Contribution(gains[k][c], ModulatedAt(m, filters[k], src[k], index, i))
  {
  }

  /** An output channel none of whose gains is audible receives nothing. */
  lemma {:induction false} SilentChannelUnchanged(m: Modulation, filters: seq<FilterState>, src: seq<seq<real>>,
                                                  gains: seq<seq<real>>, index: int, c: nat, i: nat, k: nat)
    requires Shaped(filters, src, gains, i + 1, c + 1) && k <= MaxEffectChannels
    requires forall j :: 0 <= j < k ==> !Audible(gains[j][c])
    ensures MixedAt(m, filters, src, gains, index, c, i, k) == 0.0
    decreases k
  {
    if k > 0 {
      SilentChannelUnchanged(m, filters, src, gains, index, c, i, k - 1);
    }
  }

  // ---------------------------------------------------------------------
  // The loops

  /** Multiplies `src` by the waveform, advancing the phase by `step`
    * before each sample; the phase is a copy, so the caller's is not
    * advanced. */
  method Modulate(m: Modulation, dst: array<real>, src: seq<real>, index: int, todo: nat)
    requires todo <= |src| && todo <= dst.Length
    modifies dst
    ensures forall i :: 0 <= i < dst.Length ==>
      dst[i] == if i < todo then Ring(src[i], Wave(m, Phase(index, m.step, i + 1))) else old(dst[i])
  {
    var idx := index;
    var i := 0;
    while i < todo
      invariant 0 <= i <= todo
      invariant idx == Phase(index, m.step, i)
      invariant forall k :: 0 <= k < dst.Length ==>
        dst[k] == if k < i then Ring(src[k], Wave(m, Phase(index, m.step, k + 1))) else old(dst[k])
    {
      idx := idx + m.step;
      idx := idx % FracOne;
      dst[i] := Ring(src[i], Wave(m, idx));
      i := i + 1;
    }
  }

  /** Advances the stored phase once per sample of a chunk. */
  method Advance(index: int, step: int, todo: nat) returns (index': int)
    ensures index' == Phase(index, step, todo)
  {
    index' := index;
    var i := 0;
    while i < todo
      invariant 0 <= i <= todo
      invariant index' == Phase(index, step, i)
    {
      index' := index' + step;
      index' := index' % FracOne;
      i := i + 1;
    }
  }

  /** One effect channel of the chunk [base, end): filter the chunk from
    * state `f`, modulate it from phase `index` into `temps`, and mix it
    * into the output channels through `gains`. When `f` and `index` are
    * what the first `base` samples left, starting from `f0` and `index0`,
    * each sample added is the block's modulated sample. */
  method ProcessChannel(dst: array2<real>, temps: array<real>, base: nat, end: nat, f: FilterState,
                        ghost f0: FilterState, s: seq<real>, m: Modulation, ghost index0: int, index: int,
                        gains: seq<real>, channelCount: nat)
    returns (f': FilterState)
    requires base <= end <= |s| && end - base <= temps.Length
    requires f == FilterRun(f0, s, base) && index == Phase(index0, m.step, base)
    requires channelCount <= |gains| && channelCount <= dst.Length0 && end <= dst.Length1
    modifies dst, temps
    ensures f' == FilterRun(f0, s, end)
    ensures forall c, i :: 0 <= c < dst.Length0 && 0 <= i < dst.Length1 ==>
      dst[c, i] == if c < channelCount && base <= i < end
                   then old(dst[c, i]) + Contribution(gains[c], ModulatedAt(m, f0, s, index0, i))
                   else old(dst[c, i])
  {
    var filtered := Process(f, s[base..end]);
    f' := filtered.state;
    Modulate(m, temps, filtered.out, index, end - base);
    var modulated := temps[..end - base];
    forall i | base <= i < end
      ensures modulated[i - base] == ModulatedAt(m, f0, s, index0, i)
    {
      ChunkSampleAgrees(m, f0, s, index0, base, end, i);
    }
    RunResumes(f0, s, base, end, end - base);
    assert base + (end - base) == end;
    MixGated(dst, base, modulated, gains, channelCount);
  }

  /** A chunk's sample, filtered from the state the earlier chunks left
    * and modulated from the phase they left, is the block's sample i. */
  lemma ChunkSampleAgrees(m: Modulation, f: FilterState, s: seq<real>, index: int, base: nat, end: nat, i: nat)
    requires base <= i < end <= |s|
    ensures Ring(Filtered(FilterRun(f, s, base), s[base..end], i - base),
                 Wave(m, Phase(Phase(index, m.step, base), m.step, i - base + 1)))
            == ModulatedAt(m, f, s, index, i)
  {
    FilteredResumes(f, s, base, end, i - base);
    assert base + (i - base) == i;
    PhaseCompose(index, m.step, base, i - base + 1);
    assert base + (i - base + 1) == i + 1;
  }

  /** All effect channels of the chunk [base, end). `filters` are the
    * states the first `base` samples left, starting from `filters0`, and
    * `index` is the phase they left, starting from `index0`. Every
    * effect channel is modulated from that same phase. */
  method ProcessChunk(dst: array2<real>, temps: array<real>, base: nat, end: nat,
                      filters: seq<FilterState>, ghost filters0: seq<FilterState>, src: seq<seq<real>>,
                      m: Modulation, ghost index0: int, index: int, gains: seq<seq<real>>, channelCount: nat)
    returns (filters': seq<FilterState>)
    requires Shaped(filters0, src, gains, end, channelCount) && |filters| == MaxEffectChannels
    requires base <= end && end - base <= temps.Length
    requires forall j :: 0 <= j < MaxEffectChannels ==> filters[j] == FilterRun(filters0[j], src[j], base)
    requires index == Phase(index0, m.step, base)
    requires channelCount <= dst.Length0 && end <= dst.Length1
    modifies dst, temps
    ensures |filters'| == MaxEffectChannels
    ensures forall j :: 0 <= j < MaxEffectChannels ==> filters'[j] == FilterRun(filters0[j], src[j], end)
    ensures forall c, i :: 0 <= c < dst.Length0 && 0 <= i < dst.Length1 ==>
      dst[c, i] == if c < channelCount && base <= i < end
                   then old(dst[c, i]) + MixedAt(m, filters0, src, gains, index0, c, i, MaxEffectChannels)
                   else old(dst[c, i])
  {
    filters' := filters;
    var j := 0;
    while j < MaxEffectChannels
      invariant 0 <= j <= MaxEffectChannels && |filters'| == MaxEffectChannels
      invariant forall k :: 0 <= k < j ==> filters'[k] == FilterRun(filters0[k], src[k], end)
      invariant forall k :: j <= k < MaxEffectChannels ==> filters'[k] == filters[k]
      invariant forall c, i :: 0 <= c < dst.Length0 && 0 <= i < dst.Length1 ==>
        dst[c, i] == if c < channelCount && base <= i < end
                     then old(dst[c, i]) + MixedAt(m, filters0, src, gains, index0, c, i, j)
                     else old(dst[c, i])
    {
      label before:
      var f := ProcessChannel(dst, temps, base, end, filters'[j], filters0[j], src[j], m, index0, index,
                              gains[j], channelCount);
      forall c, i | 0 <= c < dst.Length0 && 0 <= i < dst.Length1
        ensures dst[c, i] == if c < channelCount && base <= i < end
                             then old(dst[c, i]) + MixedAt(m, filters0, src, gains, index0, c, i, j + 1)
                             else old(dst[c, i])
      {
        if c < channelCount && base <= i < end {
          MixedAtNext(m, filters0, src, gains, index0, c, i, j);
          assert dst[c, i] == old@before(dst[c, i])
            + Contribution(gains[j][c], ModulatedAt(m, filters0[j], src[j], index0, i));
        }
      }
      filters' := filters'[j := f];
      j := j + 1;
    }
  }

  /** A whole block of `sampleCount` samples in chunks of at most 128:
    * the filters end in the state filtering the whole block leaves, the
    * phase ends `sampleCount` advances on, and every output channel below
    * `channelCount` receives every effect channel's modulated sample
    * through its gated gain. */
  method ProcessBlock(dst: array2<real>, filters: seq<FilterState>, m: Modulation, index: int,
                      gains: seq<seq<real>>, sampleCount: nat, src: seq<seq<real>>, channelCount: nat)
    returns (filters': seq<FilterState>, index': int)
    requires Shaped(filters, src, gains, sampleCount, channelCount)
    requires channelCount <= dst.Length0 && sampleCount <= dst.Length1
    modifies dst
    ensures index' == Phase(index, m.step, sampleCount)
    ensures |filters'| == MaxEffectChannels
    ensures forall j :: 0 <= j < MaxEffectChannels ==> filters'[j] == FilterRun(filters[j], src[j], sampleCount)
    ensures forall c, i :: 0 <= c < dst.Length0 && 0 <= i < dst.Length1 ==>
      dst[c, i] == if c < channelCount && i < sampleCount
                   then old(dst[c, i]) + MixedAt(m, filters, src, gains, index, c, i, MaxEffectChannels)
                   else old(dst[c, i])
  {
    var temps := new real[MaxChunk];
    filters', index' := filters, index;
    var base := 0;
    while base < sampleCount
      invariant 0 <= base <= sampleCount && |filters'| == MaxEffectChannels
      invariant forall j :: 0 <= j < MaxEffectChannels ==> filters'[j] == FilterRun(filters[j], src[j], base)
      invariant index' == Phase(index, m.step, base)
      invariant forall c, i :: 0 <= c < dst.Length0 && 0 <= i < dst.Length1 ==>
        dst[c, i] == if c < channelCount && i < base
                     then old(dst[c, i]) + MixedAt(m, filters, src, gains, index, c, i, MaxEffectChannels)
                     else old(dst[c, i])
    {
      var end := base + ChunkSize(sampleCount - base);
      filters' := ProcessChunk(dst, temps, base, end, filters', filters, src, m, index, index', gains, channelCount);
      var next := Advance(index', m.step, end - base);
      PhaseCompose(index, m.step, base, end - base);
      assert base + (end - base) == end;
      index' := next;
      base := end;
    }
  }

  // ---------------------------------------------------------------------
  // The effect state

  /** Row `j` of the 4x4 identity matrix. */
  function IdentityRow(j: nat): (row: seq<real>)
    ensures |row| == 4
    ensures forall k :: 0 <= k < 4 ==> row[k] == if k == j then 1.0 else 0.0
  {
    seq(4, k => if k == j then 1.0 else 0.0)
  }

  class ModulatorState {
    /** The selected modulation routine; None until the first update. */
    var waveform: Option<Waveform>
    /** The phase, in 1/FracOne of a period. */
    var index: int
    var step: int
    /** One row of output gains per effect channel. */
    var gains: seq<seq<real>>
    /** One high-pass filter per effect channel. */
    var filters: seq<FilterState>
    var outChannels: int

    ghost predicate Valid()
      reads this
    {
      |filters| == MaxEffectChannels && |gains| == MaxEffectChannels
      && (forall j :: 0 <= j < MaxEffectChannels ==> |gains[j]| == MaxOutputChannels)
      && 0 <= index < FracOne
    }

    /** Value-initialised members: no routine, phase and step zero, all
      * gains and filters zero. */
    constructor()
      ensures Valid()
      ensures waveform == None && index == 0 && step == 0 && outChannels == 0
      ensures forall j :: 0 <= j < MaxEffectChannels ==>
        gains[j] == seq(MaxOutputChannels, _ => 0.0)
        && filters[j] == FilterState(Coefficients(0.0, 0.0, 0.0, 0.0, 0.0), ClearedHistory)
    {
      waveform := None;
      index, step := 0, 0;
      gains := seq(MaxEffectChannels, _ => seq(MaxOutputChannels, _ => 0.0));
      filters := seq(MaxEffectChannels, _ => FilterState(Coefficients(0.0, 0.0, 0.0, 0.0, 0.0), ClearedHistory));
      outChannels := 0;
    }

    /** Phase zero, step one, and every filter's history cleared. */
    method Construct()
      requires Valid()
      modifies this
      ensures Valid()
      ensures index == 0 && step == 1
      ensures forall j :: 0 <= j < MaxEffectChannels ==>
        filters[j] == FilterState(old(filters[j]).coeffs, ClearedHistory)
      ensures waveform == old(waveform) && gains == old(gains) && outChannels == old(outChannels)
    {
      index := 0;
      step := 1;
      var cleared := filters;
      var i := 0;
      while i < MaxEffectChannels
        invariant 0 <= i <= MaxEffectChannels && |cleared| == MaxEffectChannels
        invariant forall j :: 0 <= j < MaxEffectChannels ==>
          cleared[j] == if j < i then FilterState(filters[j].coeffs, ClearedHistory) else filters[j]
      {
        cleared := cleared[i := cleared[i].(history := ClearedHistory)];
        i := i + 1;
      }
      filters := cleared;
    }

    /** Selects the waveform, sets the step (a computed step of zero
      * becomes one), gives every filter the high-pass shape
      * b0 = a, b1 = -a, b2 = 0, a1 = -a, a2 = 0, and sets each effect
      * channel's gains to the first-order gains of its identity row.
      * `rawStep` is the truncated frequency * FracOne / device rate, `a`
      * the filter constant, and `firstOrderGains` the gains the chosen
      * gain routine produces; all three are computed outside this model. */
    method Update(waveformCode: int, rawStep: int, a: real, out: AmbiOutput, numChannels: int,
                  firstOrderGains: GainsCall -> seq<real>)
      requires Valid()
      requires forall j :: 0 <= j < MaxEffectChannels ==>
        |firstOrderGains(ComputeFirstOrderGains(out, IdentityRow(j), 1.0))| == MaxOutputChannels
      modifies this
      ensures Valid()
      ensures waveform == Some(SelectWaveform(waveformCode))
      ensures step == (if rawStep == 0 then 1 else rawStep)
      ensures rawStep >= 0 ==> step >= 1
      ensures forall j :: 0 <= j < MaxEffectChannels ==>
        filters[j] == FilterState(Coefficients(a, -a, 0.0, -a, 0.0), old(filters[j]).history)
      ensures forall j :: 0 <= j < MaxEffectChannels ==>
        gains[j] == firstOrderGains(ComputeFirstOrderGains(out, IdentityRow(j), 1.0))
      ensures outChannels == numChannels && index == old(index)
    {
      waveform := Some(SelectWaveform(waveformCode));
      step := rawStep;
      if step == 0 {
        step := 1;
      }
      var shaped := filters;
      var i := 0;
      while i < MaxEffectChannels
        invariant 0 <= i <= MaxEffectChannels && |shaped| == MaxEffectChannels
        invariant forall j :: 0 <= j < MaxEffectChannels ==>
          shaped[j] == if j < i then FilterState(Coefficients(a, -a, 0.0, -a, 0.0), filters[j].history)
                       else filters[j]
      {
        shaped := shaped[i := shaped[i].(coeffs := Coefficients(a, -a, 0.0, -a, 0.0))];
        i := i + 1;
      }
      filters := shaped;
      outChannels := numChannels;
      var rows := gains;
      i := 0;
      while i < MaxEffectChannels
        invariant 0 <= i <= MaxEffectChannels && |rows| == MaxEffectChannels
        invariant forall j :: 0 <= j < MaxEffectChannels ==>
          rows[j] == if j < i then firstOrderGains(ComputeFirstOrderGains(out, IdentityRow(j), 1.0))
                     else gains[j]
      {
        rows := rows[i := firstOrderGains(ComputeFirstOrderGains(out, IdentityRow(i), 1.0))];
        i := i + 1;
      }
      gains := rows;
    }

    /** Processes `sampleCount` samples of the four effect channels of
      * `src` into the first `channelCount` channels of `dst`; `sinFunc`
      * is the sine waveform, computed outside this model. The phase ends
      * `sampleCount` advances on and stays in [0, FracOne), every filter
      * ends in the state filtering its channel leaves, and each output
      * sample receives every effect channel's modulated sample through
      * its gated gain. */
    method Process(sampleCount: nat, src: seq<seq<real>>, dst: array2<real>, channelCount: nat,
                   sinFunc: int -> real)
      requires Valid() && waveform.Some?
      requires Shaped(filters, src, gains, sampleCount, channelCount)
      requires channelCount <= MaxOutputChannels && channelCount <= dst.Length0
      requires sampleCount <= dst.Length1
      modifies this, dst
      ensures Valid()
      ensures index == Phase(old(index), step, sampleCount)
      ensures forall j :: 0 <= j < MaxEffectChannels ==>
        filters[j] == FilterRun(old(filters[j]), src[j], sampleCount)
      ensures waveform == old(waveform) && step == old(step) && gains == old(gains)
      ensures outChannels == old(outChannels)
      ensures forall c, i :: 0 <= c < dst.Length0 && 0 <= i < dst.Length1 ==>
        dst[c, i] == if c < channelCount && i < sampleCount
                     then old(dst[c, i]) + MixedAt(Modulation(waveform.value, sinFunc, step), old(filters),
                                                   src, gains, old(index), c, i, MaxEffectChannels)
                     else old(dst[c, i])
    {
      var m := Modulation(waveform.value, sinFunc, step);
      filters, index := ProcessBlock(dst, filters, m, index, gains, sampleCount, src, channelCount);
    }
  }
}
