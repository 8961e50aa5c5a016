/*
 * Small helpers of the mixer header: min/max/clamp over floats, unsigned
 * and signed 32-bit integers, linear interpolation, the 4x4 matrix row
 * setters, and the choice between the matrix-coefficient (MC) and the
 * channel-map (BF) gain computations.
 *
 * Floats are modelled as `real` (no NaN, no rounding); the unsigned and
 * signed integers as the 32-bit newtypes below.
 */
module Alu {

  /** Gains above +24 dB are never produced by the mixer. */
  const GainMixMax: real := 16.0

  /** Gains at or below -100 dB are treated as silent. */
  const GainSilenceThreshold: real := 0.00001

  newtype UInt32 = x: int | 0 <= x < 0x1_0000_0000
  newtype Int32 = x: int | -0x8000_0000 <= x < 0x8000_0000

  // ---------------------------------------------------------------------
  // min / max / clamp

  function Minf(a: real, b: real): (r: real)
    ensures r == a || r == b
    ensures r <= a && r <= b
  {
    if a > b then b else a
  }

  function Maxf(a: real, b: real): (r: real)
    ensures r == a || r == b
    ensures r >= a && r >= b
  {
    if a > b then a else b
  }

  /** clampf(val, min, max) is minf(max, maxf(min, val)). */
  function Clampf(v: real, lo: real, hi: real): (r: real)
    ensures lo <= hi ==> lo <= r <= hi
    ensures lo <= v <= hi ==> r == v
    ensures hi < lo ==> r == hi
  {
    Minf(hi, Maxf(lo, v))
  }

  function Minu(a: UInt32, b: UInt32): (r: UInt32)
    ensures r == a || r == b
    ensures r <= a && r <= b
  {
    if a > b then b else a
  }

  function Maxu(a: UInt32, b: UInt32): (r: UInt32)
    ensures r == a || r == b
    ensures r >= a && r >= b
  {
    if a > b then a else b
  }

  function Clampu(v: UInt32, lo: UInt32, hi: UInt32): (r: UInt32)
    ensures lo <= hi ==> lo <= r <= hi
    ensures lo <= v <= hi ==> r == v
    ensures hi < lo ==> r == hi
  {
    Minu(hi, Maxu(lo, v))
  }

  function Mini(a: Int32, b: Int32): (r: Int32)
    ensures r == a || r == b
    ensures r <= a && r <= b
  {
    if a > b then b else a
  }

  function Maxi(a: Int32, b: Int32): (r: Int32)
    ensures r == a || r == b
    ensures r >= a && r >= b
  {
    if a > b then a else b
  }

  function Clampi(v: Int32, lo: Int32, hi: Int32): (r: Int32)
    ensures lo <= hi ==> lo <= r <= hi
    ensures lo <= v <= hi ==> r == v
    ensures hi < lo ==> r == hi
  {
    Mini(hi, Maxi(lo, v))
  }

  // ---------------------------------------------------------------------
  // linear interpolation

  /** Moves from val1 (mu = 0) to val2 (mu = 1), staying between them. */
  function Lerp(val1: real, val2: real, mu: real): (r: real)
    ensures mu == 0.0 ==> r == val1
    ensures mu == 1.0 ==> r == val2
    ensures 0.0 <= mu <= 1.0 ==> Minf(val1, val2) <= r <= Maxf(val1, val2)
  {
    var r := val1 + (val2 - val1) * mu;
    assert 0.0 <= mu <= 1.0 ==> Minf(val1, val2) <= r <= Maxf(val1, val2) by {
      if 0.0 <= mu <= 1.0 {
        var d := val2 - val1;
        assert d * mu + d * (1.0 - mu) == d;
        if d >= 0.0 {
          MulNonNegative(d, mu);
          MulNonNegative(d, 1.0 - mu);
        } else {
          MulNonNegative(-d, mu);
          MulNonNegative(-d, 1.0 - mu);
        }
      }
    }
    r
  }

  lemma MulNonNegative(a: real, b: real)
    requires a >= 0.0 && b >= 0.0
    ensures a * b >= 0.0
  {
  }

  // ---------------------------------------------------------------------
  // 4x4 matrices, stored row-major in a two-dimensional array

  predicate IsMatrix(m: array2<real>) {
    m.Length0 == 4 && m.Length1 == 4
  }

  /** Writes the four entries of one row; every other row is untouched. */
  method MatrixSetRow(m: array2<real>, row: nat, m0: real, m1: real, m2: real, m3: real)
    requires IsMatrix(m) && row < 4
    modifies m
    ensures m[row, 0] == m0 && m[row, 1] == m1 && m[row, 2] == m2 && m[row, 3] == m3
    ensures forall r, c :: 0 <= r < 4 && r != row && 0 <= c < 4 ==> m[r, c] == old(m[r, c])
  {
    m[row, 0] := m0;
    m[row, 1] := m1;
    m[row, 2] := m2;
    m[row, 3] := m3;
  }

  /** The sixteen arguments, in row-major order. */
  function RowMajor(m00: real, m01: real, m02: real, m03: real,
                    m10: real, m11: real, m12: real, m13: real,
                    m20: real, m21: real, m22: real, m23: real,
                    m30: real, m31: real, m32: real, m33: real): (s: seq<real>)
    ensures |s| == 16
  {
    [m00, m01, m02, m03, m10, m11, m12, m13, m20, m21, m22, m23, m30, m31, m32, m33]
  }

  /** Sets all sixteen entries: entry (r, c) receives argument 4*r + c. */
  method MatrixSet(m: array2<real>,
                   m00: real, m01: real, m02: real, m03: real,
                   m10: real, m11: real, m12: real, m13: real,
                   m20: real, m21: real, m22: real, m23: real,
                   m30: real, m31: real, m32: real, m33: real)
    requires IsMatrix(m)
    modifies m
    ensures forall r, c :: 0 <= r < 4 && 0 <= c < 4 ==>
      m[r, c] == RowMajor(m00, m01, m02, m03, m10, m11, m12, m13,
                          m20, m21, m22, m23, m30, m31, m32, m33)[4 * r + c]
  {
    MatrixSetRow(m, 0, m00, m01, m02, m03);
    MatrixSetRow(m, 1, m10, m11, m12, m13);
    MatrixSetRow(m, 2, m20, m21, m22, m23);
    MatrixSetRow(m, 3, m30, m31, m32, m33);
  }

  // ---------------------------------------------------------------------
  // MC / BF dispatch of the gain computations

  /** One output channel of a channel-map (BF) layout: the ambisonic
    * channel it takes and the scale applied to it. */
  datatype BFChannelConfig = BFChannelConfig(scale: real, index: int)

  /** An output buffer description: either a decoder matrix with
    * `coeffCount` > 0 coefficients per channel, or a channel map. */
  datatype AmbiOutput = AmbiOutput(
    coeffCount: int,
    numChannels: int,
    coeffs: seq<seq<real>>,
    chanMap: seq<BFChannelConfig>)

  /** The external gain routine a dispatcher calls, with its arguments.
    * The routines themselves are not part of this model. */
  datatype GainsCall =
    | AmbientGainsMC(chanCoeffs: seq<seq<real>>, numChans: int, inGain: real)
    | AmbientGainsBF(chanMap: seq<BFChannelConfig>, numChans: int, inGain: real)
    | PanningGainsMC(chanCoeffs: seq<seq<real>>, numChans: int, numCoeffs: int, coeffs: seq<real>, inGain: real)
    | PanningGainsBF(chanMap: seq<BFChannelConfig>, numChans: int, coeffs: seq<real>, inGain: real)
    | FirstOrderGainsMC(chanCoeffs: seq<seq<real>>, numChans: int, mtx: seq<real>, inGain: real)
    | FirstOrderGainsBF(chanMap: seq<BFChannelConfig>, numChans: int, mtx: seq<real>, inGain: real)
  {
    /** True when the matrix-coefficient variant is the one called. */
    predicate IsMC() {
      AmbientGainsMC? || PanningGainsMC? || FirstOrderGainsMC?
    }
    function NumChans(): int {
      match this
      case AmbientGainsMC(_, n, _) => n
      case AmbientGainsBF(_, n, _) => n
      case PanningGainsMC(_, n, _, _, _) => n
      case PanningGainsBF(_, n, _, _) => n
      case FirstOrderGainsMC(_, n, _, _) => n
      case FirstOrderGainsBF(_, n, _, _) => n
    }
    function InGain(): real {
      match this
      case AmbientGainsMC(_, _, g) => g
      case AmbientGainsBF(_, _, g) => g
      case PanningGainsMC(_, _, _, _, g) => g
      case PanningGainsBF(_, _, _, g) => g
      case FirstOrderGainsMC(_, _, _, g) => g
      case FirstOrderGainsBF(_, _, _, g) => g
    }
  }

  /** The buffer's decoder matrix is used exactly when it has coefficients. */
  predicate UsesMatrix(b: AmbiOutput) {
    b.coeffCount > 0
  }

  function ComputeAmbientGains(b: AmbiOutput, g: real): (call: GainsCall)
    ensures call.IsMC() <==> UsesMatrix(b)
    ensures call.AmbientGainsMC? || call.AmbientGainsBF?
    ensures call.NumChans() == b.numChannels && call.InGain() == g
    ensures call.AmbientGainsMC? ==> call.chanCoeffs == b.coeffs
    ensures call.AmbientGainsBF? ==> call.chanMap == b.chanMap
  {
    if b.coeffCount > 0 then AmbientGainsMC(b.coeffs, b.numChannels, g)
    else AmbientGainsBF(b.chanMap, b.numChannels, g)
  }

  function ComputePanningGains(b: AmbiOutput, c: seq<real>, g: real): (call: GainsCall)
    ensures call.IsMC() <==> UsesMatrix(b)
    ensures call.PanningGainsMC? || call.PanningGainsBF?
    ensures call.NumChans() == b.numChannels && call.InGain() == g && call.coeffs == c
    ensures call.PanningGainsMC? ==> call.chanCoeffs == b.coeffs && call.numCoeffs == b.coeffCount
    ensures call.PanningGainsBF? ==> call.chanMap == b.chanMap
  {
    if b.coeffCount > 0 then PanningGainsMC(b.coeffs, b.numChannels, b.coeffCount, c, g)
    else PanningGainsBF(b.chanMap, b.numChannels, c, g)
  }

  function ComputeFirstOrderGains(b: AmbiOutput, mtx: seq<real>, g: real): (call: GainsCall)
    ensures call.IsMC() <==> UsesMatrix(b)
    ensures call.FirstOrderGainsMC? || call.FirstOrderGainsBF?
    ensures call.NumChans() == b.numChannels && call.InGain() == g && call.mtx == mtx
    ensures call.FirstOrderGainsMC? ==> call.chanCoeffs == b.coeffs
    ensures call.FirstOrderGainsBF? ==> call.chanMap == b.chanMap
  {
    if b.coeffCount > 0 then FirstOrderGainsMC(b.coeffs, b.numChannels, mtx, g)
    else FirstOrderGainsBF(b.chanMap, b.numChannels, mtx, g)
  }
}
