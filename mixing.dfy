/*
 * What the three effect units share when they write their output: the
 * silence gate on a channel gain, the scaled accumulation of a block of
 * samples into one output channel, and the split of a block into
 * sub-chunks of at most 128 samples.
 */
module Mixing {
  import opened Alu

  /** Output channels that an effect can address (MAX_OUTPUT_CHANNELS;
    * its value comes from a header that is not part of this model). */
  const MaxOutputChannels: nat := 16

  /** Largest sub-chunk an effect processes at once (its stack buffers). */
  const MaxChunk: nat := 128

  function Abs(x: real): (r: real)
    ensures r >= 0.0 && (r == x || r == -x)
  {
    if x < 0.0 then -x else x
  }

  /** A channel is mixed only when its gain magnitude exceeds the threshold. */
  predicate Audible(gain: real) {
    Abs(gain) > GainSilenceThreshold
  }

  /** What one gated channel adds for one sample `v`. */
  function Contribution(gain: real, v: real): (r: real)
    ensures Audible(gain) ==> r == v * gain
    ensures !Audible(gain) ==> r == 0.0
  {
    if Audible(gain) then v * gain else 0.0
  }

  /** dst[k][base + i] += samples[i] * gain for every i; nothing else changes. */
  method AddScaled(dst: array2<real>, k: nat, base: nat, gain: real, samples: seq<real>)
    requires k < dst.Length0 && base + |samples| <= dst.Length1
    modifies dst
    ensures forall c, i :: 0 <= c < dst.Length0 && 0 <= i < dst.Length1 ==>
      dst[c, i] == if c == k && base <= i < base + |samples|
                   then old(dst[c, i]) + samples[i - base] * gain
                   else old(dst[c, i])
  {
    var i := 0;
    while i < |samples|
      invariant 0 <= i <= |samples|
      invariant forall c, j :: 0 <= c < dst.Length0 && 0 <= j < dst.Length1 ==>
        dst[c, j] == if c == k && base <= j < base + i
                     then old(dst[c, j]) + samples[j - base] * gain
                     else old(dst[c, j])
    {
      dst[k, base + i] := dst[k, base + i] + samples[i] * gain;
      i := i + 1;
    }
  }

  /** For every output channel c below `channelCount` whose gain is
    * audible, dst[c][base + i] += samples[i] * gains[c]; channels whose
    * gain is at or below the silence threshold, and channels from
    * `channelCount` on, are left as they were. */
  method MixGated(dst: array2<real>, base: nat, samples: seq<real>, gains: seq<real>, channelCount: nat)
    requires channelCount <= |gains| && channelCount <= dst.Length0
    requires base + |samples| <= dst.Length1
    modifies dst
    ensures forall c, i :: 0 <= c < dst.Length0 && 0 <= i < dst.Length1 ==>
      dst[c, i] == if c < channelCount && base <= i < base + |samples|
                   then old(dst[c, i]) + Contribution(gains[c], samples[i - base])
                   else old(dst[c, i])
  {
    var c := 0;
    while c < channelCount
      invariant 0 <= c <= channelCount
      invariant forall c', i :: 0 <= c' < dst.Length0 && 0 <= i < dst.Length1 ==>
        dst[c', i] == if c' < c && base <= i < base + |samples|
                      then old(dst[c', i]) + Contribution(gains[c'], samples[i - base])
                      else old(dst[c', i])
    {
      var gain := gains[c];
      if Audible(gain) {
        AddScaled(dst, c, base, gain, samples);
      }
      c := c + 1;
    }
  }

  /** The size of the next sub-chunk when `remaining` samples are left. */
  function ChunkSize(remaining: nat): (td: nat)
    ensures td <= remaining && td <= MaxChunk
    ensures remaining > 0 ==> td > 0
    ensures td == remaining || td == MaxChunk
  {
    if remaining < MaxChunk then remaining else MaxChunk
  }

  function Sum(s: seq<nat>): nat {
    if s == [] then 0 else Sum(s[..|s| - 1]) + s[|s| - 1]
  }

  /** The sub-chunk sizes a block of `count` samples is processed in. */
  function Chunks(count: nat): (s: seq<nat>)
    decreases count
    ensures Sum(s) == count
    ensures forall j :: 0 <= j < |s| ==> 0 < s[j] <= MaxChunk
    ensures forall j :: 0 <= j < |s| - 1 ==> s[j] == MaxChunk
  {
    if count == 0 then []
    else
      var td := ChunkSize(count);
      var rest := Chunks(count - td);
      SumCons(td, rest);
      [td] + rest
  }

  lemma {:induction false} SumCons(x: nat, s: seq<nat>)
    ensures Sum([x] + s) == x + Sum(s)
    decreases |s|
  {
    if s != [] {
      assert ([x] + s)[..|[x] + s| - 1] == [x] + s[..|s| - 1];
      SumCons(x, s[..|s| - 1]);
    }
  }
}
