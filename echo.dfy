/*
 * The two-tap echo effect. A power-of-two ring buffer holds the delayed
 * signal; each output sample reads two taps behind the write offset, the
 * second tap plus the new input goes through the damping filter, and the
 * filtered value times the feedback gain is written back at the offset.
 * The two tap values are panned to the output channels with one gain set
 * per tap.
 *
 * `x & (len - 1)` with `len` a power of two is modelled as the Euclidean
 * `x % len`; sample-count truncations of delay times are taken as inputs.
 */
module Echo {
  import opened Alu
  import opened Mixing
  import opened Biquad
  import opened Modular

  // ---------------------------------------------------------------------
  // Buffer sizing

  ghost predicate IsPowerOfTwo(n: int)
    decreases n
  {
    n == 1 || (n >= 2 && n % 2 == 0 && IsPowerOfTwo(n / 2))
  }

  /** The smallest power of two that is at least `n`. */
  function NextPowerOfTwo(n: nat): (r: nat)
    decreases n
    ensures IsPowerOfTwo(r)
    ensures r >= n && r >= 1
    ensures r == 1 || r / 2 < n
  {
    if n <= 1 then 1 else 2 * NextPowerOfTwo((n + 1) / 2)
  }

  /** The ring-buffer slot of position `x`: `x & (len - 1)` for a
    * power-of-two length, that is the Euclidean remainder of `x`. */
  function Slot(x: int, len: int): (i: int)
    requires len > 0
    ensures 0 <= i < len
    ensures 0 <= x < len ==> i == x
  {
    if 0 <= x < len then RemainderUnique(x, len, 0, x); x % len
    else x % len
  }

  /** Positions a whole length apart share a slot. */
  lemma SlotShift(x: int, len: int)
    requires len > 0
    ensures Slot(x + len, len) == Slot(x, len)
  {
    ModShift(x, len);
  }

  /** Two positions closer than the buffer length use different slots. */
  lemma DistinctSlots(a: int, b: int, len: int)
    requires 0 < b - a < len
    ensures Slot(b, len) != Slot(a, len)
  {
    var d := b - a;
    var q, r := a / len, a % len;
    if r + d < len {
      assert a + d == q * len + (r + d);
      RemainderUnique(a + d, len, q, r + d);
    } else {
      assert a + d == (q + 1) * len + (r + d - len);
      RemainderUnique(a + d, len, q + 1, r + d - len);
    }
  }

  /** The filter gain the damping sets: 1 - damping, but never below -24 dB. */
  function ShelfGain(damping: real): (g: real)
    ensures g >= 0.0625 && g >= 1.0 - damping
    ensures g == 0.0625 || g == 1.0 - damping
    ensures 0.0 <= damping ==> g <= 1.0
  {
    Maxf(1.0 - damping, 0.0625)
  }

  // ---------------------------------------------------------------------
  // What one block of processing computes

  /** The fixed parameters of a block: filter coefficients, the two tap
    * delays and the feedback gain. */
  datatype EchoParams = EchoParams(coeffs: Coefficients, tap1: int, tap2: int, feed: real)

  /** The evolving state: ring buffer, write offset, filter history. */
  datatype DelayLine = DelayLine(buf: seq<real>, offset: int, history: History)

  datatype TapPair = TapPair(first: real, second: real)

  datatype EchoStepResult = EchoStepResult(line: DelayLine, taps: TapPair, written: real)

  /** The value `t` samples behind the write offset. */
  function ReadTap(line: DelayLine, t: int): real
    requires |line.buf| > 0
  {
    line.buf[Slot(line.offset - t, |line.buf|)]
  }

  /** The value written back into the ring for filter output `y`. */
  function Feedback(y: real, feed: real): real {
    y * feed
  }

  /** One sample: read both taps, filter the second tap plus the input,
    * write the filtered value times the feedback gain at the offset, and
    * advance the offset. */
  function EchoStep(p: EchoParams, line: DelayLine, input: real): (r: EchoStepResult)
    requires |line.buf| > 0
    ensures |r.line.buf| == |line.buf| && r.line.offset == line.offset + 1
  {
    var t1 := ReadTap(line, p.tap1);
    var t2 := ReadTap(line, p.tap2);
    var x := t2 + input;
    var y := Output(p.coeffs, line.history, x);
    var w := Feedback(y, p.feed);
    EchoStepResult(
      DelayLine(line.buf[Slot(line.offset, |line.buf|) := w], line.offset + 1, Shift(line.history, x, y)),
      TapPair(t1, t2), w)
  }

  /** The line after running the echo over the first `n` samples of
    * `inputs`. */
  function EchoRun(p: EchoParams, s: DelayLine, inputs: seq<real>, n: nat): (r: DelayLine)
    requires |s.buf| > 0 && n <= |inputs|
    decreases n
    ensures |r.buf| == |s.buf|
    ensures r.offset == s.offset + n
  {
    if n == 0 then s
    else EchoStep(p, EchoRun(p, s, inputs, n - 1), inputs[n - 1]).line
  }

  /** What sample n of the run reads at the taps and writes to the ring. */
  function EchoAt(p: EchoParams, s: DelayLine, inputs: seq<real>, n: nat): EchoStepResult
    requires |s.buf| > 0 && n < |inputs|
  {
    EchoStep(p, EchoRun(p, s, inputs, n), inputs[n])
  }

  /** The value written at sample `j`, at position `x`, is still in its
    * slot after `n` samples, as long as no more than a buffer length of
    * samples have been written since. */
  lemma {:induction false} RingKeepsWrite(p: EchoParams, s: DelayLine, inputs: seq<real>, n: nat, j: nat, x: int)
    requires |s.buf| > 0 && n <= |inputs|
    requires j < n && n - j <= |s.buf| && x == s.offset + j
    ensures EchoRun(p, s, inputs, n).buf[Slot(x, |s.buf|)] == EchoAt(p, s, inputs, j).written
    decreases n
  {
    var prev := EchoRun(p, s, inputs, n - 1);
    if j < n - 1 {
      RingKeepsWrite(p, s, inputs, n - 1, j, x);
      DistinctSlots(x, prev.offset, |s.buf|);
      StepKeepsOther(p, prev, inputs[n - 1], Slot(x, |s.buf|));
    } else {
      assert j == n - 1 && x == prev.offset;
      StepWritesAt(p, prev, inputs[n - 1]);
    }
  }

  /** A position `x` that is `e` behind the starting offset keeps its old
    * value while no more than `len - e` samples are written. */
  lemma {:induction false} RingKeepsOld(p: EchoParams, s: DelayLine, inputs: seq<real>, n: nat, e: int, x: int)
    requires |s.buf| > 0 && n <= |inputs|
    requires 0 < e && n + e <= |s.buf| && x == s.offset - e
    ensures EchoRun(p, s, inputs, n).buf[Slot(x, |s.buf|)] == s.buf[Slot(x, |s.buf|)]
    decreases n
  {
    if n > 0 {
      var prev := EchoRun(p, s, inputs, n - 1);
      RingKeepsOld(p, s, inputs, n - 1, e, x);
      DistinctSlots(x, prev.offset, |s.buf|);
      StepKeepsOther(p, prev, inputs[n - 1], Slot(x, |s.buf|));
    }
  }

  /** A tap of delay t read at sample n >= t holds the value written at
    * sample n - t, as long as t is at most the buffer length. */
  lemma {:induction false} TapReadsWrite(p: EchoParams, s: DelayLine, inputs: seq<real>, n: nat, t: int)
    requires |s.buf| > 0 && n < |inputs| && 1 <= t <= |s.buf| && t <= n
    ensures ReadTap(EchoRun(p, s, inputs, n), t) == EchoAt(p, s, inputs, n - t).written
  {
    var line := EchoRun(p, s, inputs, n);
    RingKeepsWrite(p, s, inputs, n, n - t, line.offset - t);
  }

  /** A tap of delay t read at sample n < t holds what the ring held
    * before the run, t - n positions behind the starting offset. */
  lemma {:induction false} TapReadsOld(p: EchoParams, s: DelayLine, inputs: seq<real>, n: nat, t: int)
    requires |s.buf| > 0 && n < |inputs| && t <= |s.buf| && n < t
    ensures ReadTap(EchoRun(p, s, inputs, n), t) == s.buf[Slot(s.offset + n - t, |s.buf|)]
  {
    var line := EchoRun(p, s, inputs, n);
    RingKeepsOld(p, s, inputs, n, t - n, line.offset - t);
    assert line.offset - t == s.offset + n - t;
  }

  /** Both cases for one tap of delay t, 1 <= t <= buffer length. */
  lemma {:induction false} TapDelayed(p: EchoParams, s: DelayLine, inputs: seq<real>, n: nat, t: int)
    requires |s.buf| > 0 && n < |inputs| && 1 <= t <= |s.buf|
    ensures t <= n ==> ReadTap(EchoRun(p, s, inputs, n), t) == EchoAt(p, s, inputs, n - t).written
    ensures n < t ==> ReadTap(EchoRun(p, s, inputs, n), t) == s.buf[Slot(s.offset + n - t, |s.buf|)]
  {
    if t <= n {
      TapReadsWrite(p, s, inputs, n, t);
    } else {
      TapReadsOld(p, s, inputs, n, t);
    }
  }

  /** The taps are delayed copies of the feedback: at sample n of a run,
    * each tap of delay t (1 <= t <= buffer length) reads the value written
    * at sample n - t, or, when n < t, the value the ring held before. */
  lemma {:induction false} TapsReadDelayedFeedback(p: EchoParams, s: DelayLine, inputs: seq<real>, n: nat)
    requires |s.buf| > 0 && n < |inputs|
    requires 1 <= p.tap1 <= |s.buf| && 1 <= p.tap2 <= |s.buf|
    ensures var taps := EchoAt(p, s, inputs, n).taps;
      && (p.tap1 <= n ==> taps.first == EchoAt(p, s, inputs, n - p.tap1).written)
      && (p.tap2 <= n ==> taps.second == EchoAt(p, s, inputs, n - p.tap2).written)
      && (n < p.tap1 ==> taps.first == s.buf[Slot(s.offset + n - p.tap1, |s.buf|)])
      && (n < p.tap2 ==> taps.second == s.buf[Slot(s.offset + n - p.tap2, |s.buf|)])
  {
    var line := EchoRun(p, s, inputs, n);
    assert EchoAt(p, s, inputs, n).taps == TapPair(ReadTap(line, p.tap1), ReadTap(line, p.tap2));
    TapDelayed(p, s, inputs, n, p.tap1);
    TapDelayed(p, s, inputs, n, p.tap2);
  }

  /** The taps read at samples base, ..., n - 1 of a run. */
  function TapsFrom(p: EchoParams, s: DelayLine, inputs: seq<real>, base: nat, n: nat): (r: seq<TapPair>)
    requires |s.buf| > 0 && base <= n <= |inputs|
    decreases n
    ensures |r| == n - base
  {
    if n == base then [] else TapsFrom(p, s, inputs, base, n - 1) + [EchoAt(p, s, inputs, n - 1).taps]
  }

  lemma {:induction false} TapsFromAt(p: EchoParams, s: DelayLine, inputs: seq<real>, base: nat, n: nat)
    requires |s.buf| > 0 && base <= n <= |inputs|
    decreases n
    ensures forall k :: base <= k < n ==> TapsFrom(p, s, inputs, base, n)[k - base] == EchoAt(p, s, inputs, k).taps
  {
    if n > base {
      TapsFromAt(p, s, inputs, base, n - 1);
      var prev := TapsFrom(p, s, inputs, base, n - 1);
      var last := EchoAt(p, s, inputs, n - 1).taps;
      assert TapsFrom(p, s, inputs, base, n) == prev + [last];
      forall k | base <= k < n
        ensures TapsFrom(p, s, inputs, base, n)[k - base] == EchoAt(p, s, inputs, k).taps
      {
        if k < n - 1 {
          assert (prev + [last])[k - base] == prev[k - base];
        } else {
          assert (prev + [last])[|prev|] == last;
        }
      }
    }
  }

  /** A step changes the ring only at the slot of the write offset... */
  lemma StepKeepsOther(p: EchoParams, line: DelayLine, input: real, k: int)
    requires 0 <= k < |line.buf| && k != Slot(line.offset, |line.buf|)
    ensures EchoStep(p, line, input).line.buf[k] == line.buf[k]
  {
  }

  /** ...where it writes the step's feedback value. */
  lemma StepWritesAt(p: EchoParams, line: DelayLine, input: real)
    requires |line.buf| > 0
    ensures EchoStep(p, line, input).line.buf[Slot(line.offset, |line.buf|)] == EchoStep(p, line, input).written
  {
  }

  /** EchoStep, spelled out for the values a caller computed itself. */
  lemma StepAgrees(p: EchoParams, line: DelayLine, input: real, first: real, second: real, y: real)
    requires |line.buf| > 0
    requires first == ReadTap(line, p.tap1) && second == ReadTap(line, p.tap2)
    requires y == Output(p.coeffs, line.history, second + input)
    ensures EchoStep(p, line, input) == EchoStepResult(
      DelayLine(line.buf[Slot(line.offset, |line.buf|) := Feedback(y, p.feed)], line.offset + 1,
                Shift(line.history, second + input, y)),
      TapPair(first, second), Feedback(y, p.feed))
  {
  }

  /** The tap delays an update sets always fit in the buffer the device
    * update sized for the largest delays. */
  lemma TapsFitBuffer(delaySamples: nat, lrDelaySamples: nat, maxDelaySamples: nat, maxLrDelaySamples: nat)
    requires delaySamples <= maxDelaySamples && lrDelaySamples <= maxLrDelaySamples
    ensures var len := NextPowerOfTwo(maxDelaySamples + 1 + maxLrDelaySamples + 1);
      1 <= delaySamples + 1 <= delaySamples + 1 + lrDelaySamples < len
  {
  }

  function Firsts(t: seq<TapPair>): (r: seq<real>)
    ensures |r| == |t| && forall m :: 0 <= m < |t| ==> r[m] == t[m].first
  {
    seq(|t|, m requires 0 <= m < |t| => t[m].first)
  }

  function Seconds(t: seq<TapPair>): (r: seq<real>)
    ensures |r| == |t| && forall m :: 0 <= m < |t| ==> r[m] == t[m].second
  {
    seq(|t|, m requires 0 <= m < |t| => t[m].second)
  }

  /** One sample of the echo on the ring `buf` at write offset `offset`
    * with filter history `hist`: reads both taps behind the offset,
    * filters the second tap plus `input`, writes the result times the
    * feedback gain at the offset and advances the offset. `line` is the
    * ring, offset and history as one value; `line'` is what they become,
    * which is EchoStep's line. */
  method StepSample(buf: array<real>, offset: int, hist: History, p: EchoParams, input: real,
                    ghost line: DelayLine)
    returns (offset': int, hist': History, taps: TapPair, ghost line': DelayLine)
    requires buf.Length > 0 && line == DelayLine(buf[..], offset, hist)
    modifies buf
    ensures line' == EchoStep(p, line, input).line
    ensures line' == DelayLine(buf[..], offset', hist')
    ensures taps == EchoStep(p, line, input).taps
  {
    var len := buf.Length;
    var first := buf[Slot(offset - p.tap1, len)];
    var second := buf[Slot(offset - p.tap2, len)];
    var x := second + input;
    var y := Output(p.coeffs, hist, x);
    StepAgrees(p, line, input, first, second, y);
    hist' := Shift(hist, x, y);
    var w := Feedback(y, p.feed);
    var k := Slot(offset, len);
    buf[k] := w;
    assert buf[..] == line.buf[k := w];
    offset' := offset + 1;
    taps := TapPair(first, second);
    line' := DelayLine(buf[..], offset', hist');
  }

  /** The per-sample loop of the chunk [base, end) of `inputs`: when the
    * ring, offset and history are the line the first `base` samples of
    * the run from `s` leave, they become the line the first `end` samples
    * leave, and `temps` are the taps read in the chunk. */
  method RunChunk(buf: array<real>, offset: int, hist: History, p: EchoParams, ghost s: DelayLine,
                  inputs: seq<real>, base: nat, end: nat)
    returns (offset': int, hist': History, temps: seq<TapPair>)
    requires |s.buf| > 0 && base <= end <= |inputs| && buf.Length > 0
    requires EchoRun(p, s, inputs, base) == DelayLine(buf[..], offset, hist)
    modifies buf
    ensures EchoRun(p, s, inputs, end) == DelayLine(buf[..], offset', hist')
    ensures temps == TapsFrom(p, s, inputs, base, end)
  {
    ghost var line := DelayLine(buf[..], offset, hist);
    offset', hist' := offset, hist;
    temps := [];
    var n := base;
    while n != end
      invariant base <= n <= end
      invariant EchoRun(p, s, inputs, n) == line
      invariant line == DelayLine(buf[..], offset', hist')
      invariant temps == TapsFrom(p, s, inputs, base, n)
      decreases end - n
    {
      var taps;
      offset', hist', taps, line := StepSample(buf, offset', hist', p, inputs[n], line);
      temps := temps + [taps];
      n := n + 1;
    }
  }

  /** Adds the two tap signals of one chunk, starting at `base`, into the
    * first `channelCount` output channels, each tap with its own gated
    * gain from `gains0` and `gains1`. */
  method MixTaps(dst: array2<real>, base: nat, temps: seq<TapPair>, channelCount: nat,
                 gains0: seq<real>, gains1: seq<real>)
    requires channelCount <= |gains0| && channelCount <= |gains1| && channelCount <= dst.Length0
    requires base + |temps| <= dst.Length1
    modifies dst
    ensures forall c, i :: 0 <= c < dst.Length0 && 0 <= i < dst.Length1 ==>
      dst[c, i] == if c < channelCount && base <= i < base + |temps|
                   then old(dst[c, i]) + Contribution(gains0[c], temps[i - base].first)
                                       + Contribution(gains1[c], temps[i - base].second)
                   else old(dst[c, i])
  {
    var k := 0;
    while k < channelCount
      invariant 0 <= k <= channelCount
      invariant forall c, i :: 0 <= c < dst.Length0 && 0 <= i < dst.Length1 ==>
        dst[c, i] == if c < k && base <= i < base + |temps|
                     then old(dst[c, i]) + Contribution(gains0[c], temps[i - base].first)
                                         + Contribution(gains1[c], temps[i - base].second)
                     else old(dst[c, i])
    {
      var channelGain := gains0[k];
      if Audible(channelGain) {
        AddScaled(dst, k, base, channelGain, Firsts(temps));
      }
      channelGain := gains1[k];
      if Audible(channelGain) {
        AddScaled(dst, k, base, channelGain, Seconds(temps));
      }
      k := k + 1;
    }
  }

  /** A whole block: the first `sampleCount` samples of `inputs` in chunks
    * of at most 128, starting from the ring `buf`, write offset `offset`
    * and filter history `hist`. The ring, offset and history end as
    * EchoRun says, and every output channel below `channelCount` receives
    * both gated taps of every sample. */
  method ProcessBlock(buf: array<real>, offset: int, hist: History, p: EchoParams,
                      gains0: seq<real>, gains1: seq<real>, sampleCount: nat, inputs: seq<real>,
                      dst: array2<real>, channelCount: nat)
    returns (offset': int, hist': History)
    requires buf.Length > 0 && sampleCount <= |inputs|
    requires channelCount <= |gains0| && channelCount <= |gains1| && channelCount <= dst.Length0
    requires sampleCount <= dst.Length1
    modifies buf, dst
    ensures EchoRun(p, DelayLine(old(buf[..]), offset, hist), inputs, sampleCount)
      == DelayLine(buf[..], offset', hist')
    ensures forall c, i :: 0 <= c < dst.Length0 && 0 <= i < dst.Length1 ==>
      dst[c, i] == if c < channelCount && i < sampleCount
                   then old(dst[c, i])
                     + Contribution(gains0[c], EchoAt(p, DelayLine(old(buf[..]), offset, hist), inputs, i).taps.first)
                     + Contribution(gains1[c], EchoAt(p, DelayLine(old(buf[..]), offset, hist), inputs, i).taps.second)
                   else old(dst[c, i])
  {
    ghost var s := DelayLine(buf[..], offset, hist);
    offset', hist' := offset, hist;
    var base := 0;
    while base < sampleCount
      invariant 0 <= base <= sampleCount
      invariant EchoRun(p, s, inputs, base) == DelayLine(buf[..], offset', hist')
      invariant forall c, i :: 0 <= c < dst.Length0 && 0 <= i < dst.Length1 ==>
        dst[c, i] == if c < channelCount && i < base
                     then old(dst[c, i]) + Contribution(gains0[c], EchoAt(p, s, inputs, i).taps.first)
                                         + Contribution(gains1[c], EchoAt(p, s, inputs, i).taps.second)
                     else old(dst[c, i])
    {
      var end := base + ChunkSize(sampleCount - base);
      var temps;
      offset', hist', temps := RunChunk(buf, offset', hist', p, s, inputs, base, end);
      TapsFromAt(p, s, inputs, base, end);
      MixTaps(dst, base, temps, channelCount, gains0, gains1);
      base := end;
    }
    assert base == sampleCount;
  }

  // ---------------------------------------------------------------------
  // The effect state

  class EchoState {
    var sampleBuffer: array<real>
    var bufferLength: int
    /** Delays of the two taps, in samples behind the write offset. */
    var tap1: int
    var tap2: int
    var offset: int
    /** Panning gains of the first and second tap, one per output channel. */
    var gains0: seq<real>
    var gains1: seq<real>
    var feedGain: real
    var filter: FilterState

    ghost predicate Valid()
      reads this
    {
      bufferLength == sampleBuffer.Length
      && (bufferLength == 0 || IsPowerOfTwo(bufferLength))
      && |gains0| == MaxOutputChannels && |gains1| == MaxOutputChannels
    }

    ghost function Params(): EchoParams
      reads this
    {
      EchoParams(filter.coeffs, tap1, tap2, feedGain)
    }

    ghost function Line(): DelayLine
      reads this, sampleBuffer
    {
      DelayLine(sampleBuffer[..], offset, filter.history)
    }

    /** A value-initialised state after construction: no buffer, both taps
      * at zero delay, offset zero, filter history cleared. */
    constructor Construct()
      ensures Valid()
      ensures bufferLength == 0 && sampleBuffer.Length == 0
      ensures tap1 == 0 && tap2 == 0 && offset == 0
      ensures filter.history == ClearedHistory
      ensures filter.coeffs == Coefficients(0.0, 0.0, 0.0, 0.0, 0.0)
      ensures gains0 == seq(MaxOutputChannels, _ => 0.0) && gains1 == gains0
      ensures feedGain == 0.0
    {
      sampleBuffer := new real[0];
      bufferLength := 0;
      tap1, tap2 := 0, 0;
      offset := 0;
      gains0 := seq(MaxOutputChannels, _ => 0.0);
      gains1 := seq(MaxOutputChannels, _ => 0.0);
      feedGain := 0.0;
      filter := FilterState(Coefficients(0.0, 0.0, 0.0, 0.0, 0.0), ClearedHistory);
    }

    /** Sizes the ring to the next power of two that holds both maximum
      * delays plus one sample each, reallocating only when the length
      * changes, and silences it. */
    method UpdateDevice(maxDelaySamples: nat, maxLrDelaySamples: nat)
      requires Valid()
      modifies this, sampleBuffer
      ensures Valid()
      ensures bufferLength == NextPowerOfTwo(maxDelaySamples + 1 + maxLrDelaySamples + 1)
      ensures bufferLength != old(bufferLength) ==> fresh(sampleBuffer)
      ensures bufferLength == old(bufferLength) ==> sampleBuffer == old(sampleBuffer)
      ensures forall i :: 0 <= i < sampleBuffer.Length ==> sampleBuffer[i] == 0.0
      ensures tap1 == old(tap1) && tap2 == old(tap2) && offset == old(offset)
      ensures gains0 == old(gains0) && gains1 == old(gains1)
      ensures feedGain == old(feedGain) && filter == old(filter)
    {
      var maxlen := maxDelaySamples + 1;
      maxlen := maxlen + maxLrDelaySamples + 1;
      maxlen := NextPowerOfTwo(maxlen);
      if maxlen != bufferLength {
        sampleBuffer := new real[maxlen];
        bufferLength := maxlen;
      }
      var i := 0;
      while i < sampleBuffer.Length
        invariant 0 <= i <= sampleBuffer.Length
        invariant Valid() && bufferLength == maxlen
        invariant bufferLength != old(bufferLength) ==> fresh(sampleBuffer)
        invariant bufferLength == old(bufferLength) ==> sampleBuffer == old(sampleBuffer)
        invariant tap1 == old(tap1) && tap2 == old(tap2) && offset == old(offset)
        invariant gains0 == old(gains0) && gains1 == old(gains1)
        invariant feedGain == old(feedGain) && filter == old(filter)
        invariant forall j :: 0 <= j < i ==> sampleBuffer[j] == 0.0
      {
        sampleBuffer[i] := 0.0;
        i := i + 1;
      }
    }

    /** Sets the taps from the delays in samples, the pan sides from the
      * sign of the spread, the feedback gain, and the damping filter's
      * coefficients (keeping its history). `leftGains` and `rightGains`
      * are the panning gains computed for the left and the right side,
      * and `highShelf` gives the shelf coefficients for a gain; both are
      * computed outside this model. */
    method Update(delaySamples: nat, lrDelaySamples: nat, spread: real, feedback: real,
                  damping: real, highShelf: real -> Coefficients,
                  leftGains: seq<real>, rightGains: seq<real>)
      requires Valid()
      requires |leftGains| == MaxOutputChannels && |rightGains| == MaxOutputChannels
      modifies this
      ensures Valid()
      ensures tap1 == delaySamples + 1 && tap2 == tap1 + lrDelaySamples
      ensures gains0 == (if spread < 0.0 then rightGains else leftGains)
      ensures gains1 == (if spread < 0.0 then leftGains else rightGains)
      ensures feedGain == feedback
      ensures filter == FilterState(highShelf(ShelfGain(damping)), old(filter.history))
      ensures sampleBuffer == old(sampleBuffer) && bufferLength == old(bufferLength)
      ensures offset == old(offset)
    {
      tap1 := delaySamples + 1;
      tap2 := lrDelaySamples;
      tap2 := tap2 + tap1;
      var lrpan := if spread < 0.0 then -1 else 1;
      feedGain := feedback;
      var effectGain := ShelfGain(damping);
      filter := filter.(coeffs := highShelf(effectGain));
      // The first tap is panned to -lrpan * 90 degrees, the second to +lrpan * 90.
      if lrpan == 1 {
        gains0, gains1 := leftGains, rightGains;
      } else {
        gains0, gains1 := rightGains, leftGains;
      }
    }

    /** Processes `sampleCount` samples of the first input channel: the
      * ring, offset and filter history end as EchoRun says, and every
      * output channel below `channelCount` receives both gated taps of
      * every sample. */
    method Process(sampleCount: nat, src: seq<seq<real>>, dst: array2<real>, channelCount: nat)
      requires Valid() && bufferLength > 0
      requires |src| > 0 && sampleCount <= |src[0]|
      requires channelCount <= MaxOutputChannels && channelCount <= dst.Length0
      requires sampleCount <= dst.Length1
      modifies this, sampleBuffer, dst
      ensures Valid()
      ensures sampleBuffer == old(sampleBuffer) && bufferLength == old(bufferLength)
      ensures tap1 == old(tap1) && tap2 == old(tap2) && feedGain == old(feedGain)
      ensures gains0 == old(gains0) && gains1 == old(gains1)
      ensures EchoRun(old(Params()), old(Line()), src[0], sampleCount)
        == DelayLine(sampleBuffer[..], offset, filter.history)
      ensures filter.coeffs == old(filter.coeffs)
      ensures forall c, i :: 0 <= c < dst.Length0 && 0 <= i < dst.Length1 ==>
        dst[c, i] == if c < channelCount && i < sampleCount
                     then old(dst[c, i]) + Contribution(gains0[c], EchoAt(old(Params()), old(Line()), src[0], i).taps.first)
                                         + Contribution(gains1[c], EchoAt(old(Params()), old(Line()), src[0], i).taps.second)
                     else old(dst[c, i])
    {
      var p := EchoParams(filter.coeffs, tap1, tap2, feedGain);
      var hist;
      offset, hist := ProcessBlock(sampleBuffer, offset, filter.history, p, gains0, gains1,
                                   sampleCount, src[0], dst, channelCount);
      filter := filter.(history := hist);
    }
  }
}
