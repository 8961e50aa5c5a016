/*
 * The dedicated-channel effect: it routes its single input channel, at
 * the configured gain, to the device's low-frequency channel, or for
 * dialogue to the front-centre speaker when the device has one and
 * otherwise to the front-centre direction panned over the dry buffer.
 */
module Dedicated {
  import opened Alu
  import opened Mixing

  /** The slot's effect type as the update distinguishes it. */
  datatype EffectType = LowFrequencyEffect | Dialogue | OtherEffect

  /** The buffer the effect writes to: the device's physical channels or
    * its dry (ambisonic) mix. `Unassigned` is the state before any
    * update picked one. */
  datatype OutputTarget = Unassigned | RealOut | DryOut

  /** Sixteen gains, `g` at channel `idx` and zero everywhere else. */
  function OnlyAt(idx: int, g: real): (gains: seq<real>)
    ensures |gains| == MaxOutputChannels
    ensures forall c :: 0 <= c < MaxOutputChannels ==> gains[c] == if c == idx then g else 0.0
  {
    seq(MaxOutputChannels, c => if c == idx then g else 0.0)
  }

  /** The gains of `OnlyAt(idx, g)` put the input on channel `idx` alone,
    * and there only when `g` is audible. */
  lemma OnlyAtRoutesToOneChannel(idx: int, g: real, c: nat, v: real)
    requires c < MaxOutputChannels
    ensures Contribution(OnlyAt(idx, g)[c], v) == if c == idx && Audible(g) then v * g else 0.0
  {
  }

  /** The gains one update leaves: `lfeIdx` and `frontCenterIdx` are the
    * positions of those channels among the device's physical outputs, or
    * -1 where it has none, and `panned` the panning gains of the front
    * centre direction over the dry buffer. */
  function RoutedGains(kind: EffectType, gain: real, lfeIdx: int, frontCenterIdx: int,
                       panned: seq<real>): (gains: seq<real>)
    requires |panned| == MaxOutputChannels
    ensures |gains| == MaxOutputChannels
    ensures kind == OtherEffect ==> gains == OnlyAt(-1, gain)
    ensures kind == LowFrequencyEffect ==> gains == OnlyAt(lfeIdx, gain)
    ensures kind == Dialogue && frontCenterIdx != -1 ==> gains == OnlyAt(frontCenterIdx, gain)
    ensures kind == Dialogue && frontCenterIdx == -1 ==> gains == panned
  {
    match kind
    case LowFrequencyEffect => OnlyAt(lfeIdx, gain)
    case Dialogue => if frontCenterIdx != -1 then OnlyAt(frontCenterIdx, gain) else panned
    case OtherEffect => OnlyAt(-1, gain)
  }

  /** No effect type but dialogue without a front-centre speaker sends
    * anything to more than one channel, and whatever it sends goes to
    * the channel it names, at the configured gain. */
  lemma RoutedToAtMostOneChannel(kind: EffectType, gain: real, lfeIdx: int,
                                                    frontCenterIdx: int, panned: seq<real>, c: nat)
    requires |panned| == MaxOutputChannels && c < MaxOutputChannels
    requires !(kind == Dialogue && frontCenterIdx == -1)
    ensures var g := RoutedGains(kind, gain, lfeIdx, frontCenterIdx, panned)[c];
      g != 0.0 ==> (g == gain && kind != OtherEffect
                    && c == if kind == LowFrequencyEffect then lfeIdx else frontCenterIdx)
  {
  }

  class DedicatedState {
    /** One gain per output channel. */
    var gains: array<real>
    var outBuffer: OutputTarget
    var outChannels: int

    ghost predicate Valid()
      reads this
    {
      gains.Length == MaxOutputChannels
    }

    /** Every gain is zero; no output buffer is chosen yet. */
    constructor Construct()
      ensures Valid() && fresh(gains)
      ensures forall c :: 0 <= c < MaxOutputChannels ==> gains[c] == 0.0
      ensures outBuffer == Unassigned && outChannels == 0
    {
      outBuffer := Unassigned;
      outChannels := 0;
      var g := new real[MaxOutputChannels];
      var s := 0;
      while s < MaxOutputChannels
        invariant 0 <= s <= MaxOutputChannels
        invariant forall c :: 0 <= c < s ==> g[c] == 0.0
      {
        g[s] := 0.0;
        s := s + 1;
      }
      gains := g;
    }

    /** The device change needs nothing: it always succeeds. */
    method DeviceUpdate() returns (ok: bool)
      ensures ok
    {
      ok := true;
    }

    /** Clears every gain and then routes the input by effect type. A low
      * frequency effect goes to the LFE channel at `gain` when the device
      * has one; dialogue goes to the front-centre channel when there is
      * one and is otherwise panned to the front over the dry buffer (the
      * gains `panGains` gives for that panning call, whose direction
      * coefficients `frontCoeffs` are computed outside this model). Where
      * no channel is found, and for any other effect type, all gains stay
      * zero and the output buffer is left as it was. */
    method Update(kind: EffectType, gain: real, lfeIdx: int, frontCenterIdx: int,
                  realOutChannels: int, dry: AmbiOutput, frontCoeffs: seq<real>,
                  panGains: GainsCall -> seq<real>)
      requires Valid()
      requires -1 <= lfeIdx < MaxOutputChannels && -1 <= frontCenterIdx < MaxOutputChannels
      requires |panGains(ComputePanningGains(dry, frontCoeffs, gain))| == MaxOutputChannels
      modifies this, gains
      ensures Valid() && gains == old(gains)
      ensures gains[..] == RoutedGains(kind, gain, lfeIdx, frontCenterIdx,
                                       panGains(ComputePanningGains(dry, frontCoeffs, gain)))
      ensures (kind == LowFrequencyEffect && lfeIdx != -1) || (kind == Dialogue && frontCenterIdx != -1)
        ==> outBuffer == RealOut && outChannels == realOutChannels
      ensures kind == Dialogue && frontCenterIdx == -1
        ==> outBuffer == DryOut && outChannels == dry.numChannels
      ensures kind == OtherEffect || (kind == LowFrequencyEffect && lfeIdx == -1)
        ==> outBuffer == old(outBuffer) && outChannels == old(outChannels)
    {
      var g := gains;
      var i := 0;
      while i < MaxOutputChannels
        invariant 0 <= i <= MaxOutputChannels
        invariant forall c :: 0 <= c < i ==> g[c] == 0.0
        modifies g
      {
        g[i] := 0.0;
        i := i + 1;
      }
      assert g[..] == OnlyAt(-1, gain);
      if kind == LowFrequencyEffect {
        if lfeIdx != -1 {
          outBuffer, outChannels := RealOut, realOutChannels;
          g[lfeIdx] := gain;
          assert g[..] == OnlyAt(lfeIdx, gain);
        }
      } else if kind == Dialogue {
        if frontCenterIdx != -1 {
          outBuffer, outChannels := RealOut, realOutChannels;
          g[frontCenterIdx] := gain;
          assert g[..] == OnlyAt(frontCenterIdx, gain);
        } else {
          outBuffer, outChannels := DryOut, dry.numChannels;
          var panned := panGains(ComputePanningGains(dry, frontCoeffs, gain));
          i := 0;
          while i < MaxOutputChannels
            invariant 0 <= i <= MaxOutputChannels
            invariant forall c :: 0 <= c < MaxOutputChannels ==> g[c] == if c < i then panned[c] else 0.0
            modifies g
          {
            g[i] := panned[i];
            i := i + 1;
          }
          assert g[..] == panned;
        }
      }
    }

    /** Adds the first input channel, scaled by each channel's gain, into
      * the first `channelCount` output channels over `sampleCount`
      * samples; channels whose gain is at or below the silence threshold
      * and everything else in `dst` are untouched. */
    method Process(sampleCount: nat, src: seq<seq<real>>, dst: array2<real>, channelCount: nat)
      requires Valid()
      requires |src| > 0 && sampleCount <= |src[0]|
      requires channelCount <= MaxOutputChannels && channelCount <= dst.Length0
      requires sampleCount <= dst.Length1
      modifies dst
      ensures forall c, i :: 0 <= c < dst.Length0 && 0 <= i < dst.Length1 ==>
        dst[c, i] == if c < channelCount && i < sampleCount
                     then old(dst[c, i]) + Contribution(gains[c], src[0][i])
                     else old(dst[c, i])
    {
      MixGated(dst, 0, src[0][..sampleCount], gains[..], channelCount);
    }
  }
}
