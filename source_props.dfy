/*
 * The source property enumeration, the four tables that give how many
 * values each property takes in each setter/getter variant (float,
 * double, int, int64), and the outcome each setter reports for a
 * property and its values.
 *
 * In this version of the library only a few properties are accepted by
 * the setters: the three playback offsets, the radius, the stereo angles
 * (float variant), the direct filter and the auxiliary send filter. Every
 * other settable property (pitch, gain, position, ...) falls through to
 * the "invalid enum" error. The outcome functions below follow that.
 */
module SourceProps {
  import opened Alu

  /** Source properties by name; `Unknown` stands for any other enum value. */
  datatype Prop =
    | Pitch | Gain | MinGain | MaxGain | MaxDistance | RolloffFactor | DopplerFactor
    | ConeOuterGain | SecOffset | SampleOffset | ByteOffset | ConeInnerAngle
    | ConeOuterAngle | ReferenceDistance
    | Position | Velocity | Direction
    | SourceRelative | Looping | Buffer | SourceStateProp | BuffersQueued
    | BuffersProcessed | SourceTypeProp
    | ConeOuterGainHF | AirAbsorptionFactor | RoomRolloffFactor
    | DirectFilterGainHFAuto | AuxSendFilterGainAuto | AuxSendFilterGainHFAuto
    | DirectFilter | AuxSendFilter
    | DirectChannels | DistanceModel
    | ByteLength | SampleLength | SecLength
    | SampleOffsetLatency | SecOffsetLatency
    | StereoAngles | Radius | Orientation | Resampler | Spatialize
    | Unknown

  /** The errors a setter can report. */
  datatype AlError = InvalidName | InvalidEnum | InvalidValue | InvalidOperation

  /** A setter's outcome: success (AL_TRUE) or the error it sets. */
  datatype Status = Ok | Err(code: AlError)

  /** A single-precision value: finite, an infinity, or not a number. */
  datatype Float = Finite(value: real) | PosInf | NegInf | NaN

  predicate IsFinite(f: Float) {
    f.Finite?
  }

  /** `f >= 0.0f`: false for NaN and for negative infinity. */
  predicate AtLeastZero(f: Float) {
    (f.Finite? && f.value >= 0.0) || f.PosInf?
  }

  newtype Int64 = x: int | -0x8000_0000_0000_0000 <= x < 0x8000_0000_0000_0000

  const IntMax: int := 0x7FFF_FFFF
  const IntMin: int := -0x8000_0000
  const UIntMax: int := 0xFFFF_FFFF

  /** An integer converted to a 32-bit unsigned value (two's complement). */
  function ToUInt32(x: int): (u: int)
    ensures 0 <= u <= UIntMax
    ensures 0 <= x <= UIntMax ==> u == x
    ensures IntMin <= x < 0 ==> u == x + 0x1_0000_0000
  {
    x % 0x1_0000_0000
  }

  /** A value in [0, UINT_MAX] stored into a signed 32-bit int. */
  function UIntToInt32(x: int): (i: Int32)
    requires 0 <= x <= UIntMax
    ensures ToUInt32(i as int) == x
  {
    if x <= IntMax then x as Int32 else (x - 0x1_0000_0000) as Int32
  }

  // ---------------------------------------------------------------------
  // Property groups

  /** The three playback offsets. */
  predicate IsOffset(p: Prop) {
    p.SecOffset? || p.SampleOffset? || p.ByteOffset?
  }

  /** Properties with one value in every table. */
  predicate IsScalar(p: Prop) {
    p.Pitch? || p.Gain? || p.MinGain? || p.MaxGain? || p.MaxDistance? || p.RolloffFactor?
    || p.DopplerFactor? || p.ConeOuterGain? || p.SecOffset? || p.SampleOffset?
    || p.ByteOffset? || p.ConeInnerAngle? || p.ConeOuterAngle? || p.ReferenceDistance?
    || p.ConeOuterGainHF? || p.AirAbsorptionFactor? || p.RoomRolloffFactor?
    || p.DirectFilterGainHFAuto? || p.AuxSendFilterGainAuto? || p.AuxSendFilterGainHFAuto?
    || p.DirectChannels? || p.DistanceModel? || p.SourceRelative? || p.Looping?
    || p.SourceStateProp? || p.BuffersQueued? || p.BuffersProcessed? || p.SourceTypeProp?
    || p.ByteLength? || p.SampleLength? || p.SecLength? || p.Radius? || p.Resampler?
    || p.Spatialize?
  }

  /** The three-component vectors. */
  predicate IsVector(p: Prop) {
    p.Position? || p.Velocity? || p.Direction?
  }

  // ---------------------------------------------------------------------
  // The four value-count tables

  function FloatValsByProp(p: Prop): (n: int)
    ensures IsScalar(p) ==> n == 1
    ensures IsVector(p) ==> n == 3
    ensures p == Orientation ==> n == 6
    ensures p == StereoAngles ==> n == 2
    ensures p == AuxSendFilter || p == Unknown ==> n == 0
  {
    if IsScalar(p) then 1
    else if p == StereoAngles then 2
    else if IsVector(p) then 3
    else if p == Orientation then 6
    else 0
  }

  function DoubleValsByProp(p: Prop): (n: int)
    ensures IsScalar(p) ==> n == 1
    ensures IsVector(p) ==> n == 3
    ensures p == Orientation ==> n == 6
    ensures p == StereoAngles || p == SecOffsetLatency ==> n == 2
    ensures p == AuxSendFilter || p == Unknown ==> n == 0
  {
    if IsScalar(p) then 1
    else if p == StereoAngles || p == SecOffsetLatency then 2
    else if IsVector(p) then 3
    else if p == Orientation then 6
    else 0
  }

  function IntValsByProp(p: Prop): (n: int)
    ensures IsScalar(p) || p == Buffer || p == DirectFilter ==> n == 1
    ensures IsVector(p) || p == AuxSendFilter ==> n == 3
    ensures p == Orientation ==> n == 6
    ensures p == StereoAngles || p == Unknown ==> n == 0
  {
    if IsScalar(p) || p == Buffer || p == DirectFilter then 1
    else if IsVector(p) || p == AuxSendFilter then 3
    else if p == Orientation then 6
    else 0
  }

  function Int64ValsByProp(p: Prop): (n: int)
    ensures IsScalar(p) || p == Buffer || p == DirectFilter ==> n == 1
    ensures p == SampleOffsetLatency ==> n == 2
    ensures IsVector(p) || p == AuxSendFilter ==> n == 3
    ensures p == Orientation ==> n == 6
    ensures p == StereoAngles || p == Unknown ==> n == 0
  {
    if IsScalar(p) || p == Buffer || p == DirectFilter then 1
    else if p == SampleOffsetLatency then 2
    else if IsVector(p) || p == AuxSendFilter then 3
    else if p == Orientation then 6
    else 0
  }

  /** The float and double tables differ only in the seconds-offset-with-
    * latency pair, which only the double variant accepts; the int and
    * int64 tables differ only in the sample-offset-with-latency pair,
    * which only the int64 variant accepts. */
  lemma TablesPairUp(p: Prop)
    ensures p != SecOffsetLatency ==> FloatValsByProp(p) == DoubleValsByProp(p)
    ensures p != SampleOffsetLatency ==> IntValsByProp(p) == Int64ValsByProp(p)
  {
  }

  /** No table gives a count above six: the largest buffer any entry point
    * fills is the six-value orientation. */
  lemma CountsAtMostSix(p: Prop)
    ensures 0 <= FloatValsByProp(p) <= 6 && 0 <= DoubleValsByProp(p) <= 6
    ensures 0 <= IntValsByProp(p) <= 6 && 0 <= Int64ValsByProp(p) <= 6
  {
  }

  // ---------------------------------------------------------------------
  // Setter outcomes

  /** Properties the float setter passes on to the int setter. */
  predicate FloatToInt(p: Prop) {
    p.SourceRelative? || p.Looping? || p.SourceStateProp? || p.SourceTypeProp?
    || p.DistanceModel? || p.DirectFilterGainHFAuto? || p.AuxSendFilterGainAuto?
    || p.AuxSendFilterGainHFAuto? || p.DirectChannels? || p.Resampler? || p.Spatialize?
    || p.BuffersQueued? || p.BuffersProcessed?
  }

  /** Properties the int and int64 setters pass on to the float setter. */
  predicate IntToFloat(p: Prop) {
    p.ConeInnerAngle? || p.ConeOuterAngle? || p.Pitch? || p.Gain? || p.MinGain?
    || p.MaxGain? || p.ReferenceDistance? || p.RolloffFactor? || p.ConeOuterGain?
    || p.MaxDistance? || p.DopplerFactor? || p.ConeOuterGainHF? || p.AirAbsorptionFactor?
    || p.RoomRolloffFactor? || p.Radius? || p.Position? || p.Velocity? || p.Direction?
    || p.Orientation?
  }

  /** Query-only properties of the int setter. */
  predicate IntQueryOnly(p: Prop) {
    p.SourceStateProp? || p.SourceTypeProp? || p.BuffersQueued? || p.BuffersProcessed?
    || p.ByteLength? || p.SampleLength? || p.SecLength?
  }

  /** The int64 setter passes these on as one int, after a range check. */
  predicate Int64AsInt(p: Prop) {
    p.SourceRelative? || p.Looping? || p.SecOffset? || p.SampleOffset? || p.ByteOffset?
    || p.DirectFilterGainHFAuto? || p.AuxSendFilterGainAuto? || p.AuxSendFilterGainHFAuto?
    || p.DirectChannels? || p.DistanceModel? || p.Resampler? || p.Spatialize?
  }

  /** Where the float setter sends a property. */
  datatype FloatRoute =
    | FloatQueryOnly | FloatOffset | FloatRadius | FloatAngles | FloatAsInt | FloatUnknown

  function FloatRouteOf(p: Prop): (r: FloatRoute)
    ensures r == FloatQueryOnly <==> p in {ByteLength, SampleLength, SecLength, SecOffsetLatency}
    ensures r == FloatOffset <==> IsOffset(p)
    ensures r == FloatRadius <==> p == Radius
    ensures r == FloatAngles <==> p == StereoAngles
    ensures r == FloatAsInt <==> FloatToInt(p)
  {
    if p == ByteLength || p == SampleLength || p == SecLength || p == SecOffsetLatency then FloatQueryOnly
    else if IsOffset(p) then FloatOffset
    else if p == Radius then FloatRadius
    else if p == StereoAngles then FloatAngles
    else if FloatToInt(p) then FloatAsInt
    else FloatUnknown
  }

  /** Where the int setter sends a property. */
  datatype IntRoute =
    | IntQueryOnlyRoute | IntOffset | IntDirectFilter | IntAuxSend | IntAsFloat | IntUnknown

  function IntRouteOf(p: Prop): (r: IntRoute)
    ensures r == IntQueryOnlyRoute <==> IntQueryOnly(p)
    ensures r == IntOffset <==> IsOffset(p)
    ensures r == IntDirectFilter <==> p == DirectFilter
    ensures r == IntAuxSend <==> p == AuxSendFilter
    ensures r == IntAsFloat <==> IntToFloat(p)
  {
    if IntQueryOnly(p) then IntQueryOnlyRoute
    else if IsOffset(p) then IntOffset
    else if p == DirectFilter then IntDirectFilter
    else if p == AuxSendFilter then IntAuxSend
    else if IntToFloat(p) then IntAsFloat
    else IntUnknown
  }

  /** Where the int64 setter sends a property. */
  datatype Int64Route =
    | Int64QueryOnly | Int64Int | Int64UInt | Int64AuxSend | Int64AsFloat | Int64Unknown

  function Int64RouteOf(p: Prop): (r: Int64Route)
    ensures r == Int64QueryOnly <==> IntQueryOnly(p) || p == SampleOffsetLatency
    ensures r == Int64Int <==> Int64AsInt(p)
    ensures r == Int64UInt <==> p == Buffer || p == DirectFilter
    ensures r == Int64AuxSend <==> p == AuxSendFilter
    ensures r == Int64AsFloat <==> IntToFloat(p)
  {
    if IntQueryOnly(p) || p == SampleOffsetLatency then Int64QueryOnly
    else if Int64AsInt(p) then Int64Int
    else if p == Buffer || p == DirectFilter then Int64UInt
    else if p == AuxSendFilter then Int64AuxSend
    else if IntToFloat(p) then Int64AsFloat
    else Int64Unknown
  }

  /** A property one setter passes on is never passed back: the int setter
    * refuses every property the float setter hands it, and the float
    * setter handles the ones the int and int64 setters hand it itself. */
  lemma NoRouteLoops(p: Prop)
    ensures FloatRouteOf(p) == FloatAsInt ==> IntRouteOf(p) in {IntQueryOnlyRoute, IntUnknown}
    ensures IntRouteOf(p) == IntAsFloat ==> FloatRouteOf(p) in {FloatRadius, FloatUnknown}
    ensures Int64RouteOf(p) == Int64AsFloat ==> FloatRouteOf(p) in {FloatRadius, FloatUnknown}
  {
  }

  /** The outcome of the float setter. `busy` says the source is playing or
    * paused and has a voice: then an accepted offset is still reported as
    * an invalid value, because applying it to the voice always fails. */
  function FloatOutcome(p: Prop, values: seq<Float>, busy: bool): (r: Status)
    requires |values| >= FloatValsByProp(p)
    ensures r.Ok? ==> IsOffset(p) || p == Radius || p == StereoAngles
    ensures IsOffset(p) && !AtLeastZero(values[0]) ==> r == Err(InvalidValue)
    ensures IsOffset(p) ==> (r.Ok? <==> AtLeastZero(values[0]) && !busy)
    ensures p == Radius ==> (r.Ok? <==> AtLeastZero(values[0]) && IsFinite(values[0]))
    ensures p == StereoAngles ==> (r.Ok? <==> IsFinite(values[0]) && IsFinite(values[1]))
    ensures r == Err(InvalidOperation) <==>
      p in {ByteLength, SampleLength, SecLength, SecOffsetLatency} || (FloatToInt(p) && IntQueryOnly(p))
    ensures r == Err(InvalidEnum) <==>
      !(p in {ByteLength, SampleLength, SecLength, SecOffsetLatency} || IsOffset(p) || p == Radius
        || p == StereoAngles || (FloatToInt(p) && IntQueryOnly(p)))
  {
    match FloatRouteOf(p)
    case FloatQueryOnly => Err(InvalidOperation)
    case FloatOffset => if !AtLeastZero(values[0]) || busy then Err(InvalidValue) else Ok
    case FloatRadius => if AtLeastZero(values[0]) && IsFinite(values[0]) then Ok else Err(InvalidValue)
    case FloatAngles => if IsFinite(values[0]) && IsFinite(values[1]) then Ok else Err(InvalidValue)
    case FloatAsInt =>
      // passed on to the int setter, which refuses the query-only ones as
      // such and every other one as an unknown property
      if IntQueryOnly(p) then Err(InvalidOperation) else Err(InvalidEnum)
    case FloatUnknown => Err(InvalidEnum)
  }

  /** The outcome of the int setter. `numSends` is the device's send count,
    * `hasSlot` whether the device has an effect slot, and `filterIds` the
    * filter names that exist. */
  function IntOutcome(p: Prop, values: seq<Int32>, busy: bool, numSends: int, hasSlot: bool,
                      filterIds: set<int>): (r: Status)
    requires |values| >= IntValsByProp(p)
    ensures r.Ok? ==> IsOffset(p) || p == Radius || p == DirectFilter || p == AuxSendFilter
    ensures IntQueryOnly(p) ==> r == Err(InvalidOperation)
    ensures IsOffset(p) && values[0] < 0 ==> r == Err(InvalidValue)
  {
    match IntRouteOf(p)
    case IntQueryOnlyRoute => Err(InvalidOperation)
    case IntOffset => if values[0] < 0 || busy then Err(InvalidValue) else Ok
    case IntDirectFilter =>
      if values[0] == 0 || ToUInt32(values[0] as int) in filterIds then Ok else Err(InvalidValue)
    case IntAuxSend =>
      if ToUInt32(values[1] as int) < ToUInt32(numSends)
         && (values[0] == 0 || !hasSlot)
         && (values[2] == 0 || ToUInt32(values[2] as int) in filterIds)
      then Ok else Err(InvalidValue)
    case IntAsFloat => FloatOutcome(p, IntsAsFloats(values, FloatValsByProp(p)), busy)
    case IntUnknown => Err(InvalidEnum)
  }

  /** The first `n` integers converted to floats. */
  function IntsAsFloats(values: seq<Int32>, n: nat): (fs: seq<Float>)
    requires n <= |values|
    ensures |fs| == n && forall i :: 0 <= i < n ==> fs[i] == Finite(values[i] as real)
  {
    seq(n, i requires 0 <= i < n => Finite(values[i] as real))
  }

  /** The first `n` 64-bit integers converted to floats. */
  function Int64sAsFloats(values: seq<Int64>, n: nat): (fs: seq<Float>)
    requires n <= |values|
    ensures |fs| == n && forall i :: 0 <= i < n ==> fs[i] == Finite(values[i] as real)
  {
    seq(n, i requires 0 <= i < n => Finite(values[i] as real))
  }

  predicate InUIntRange(v: Int64) {
    0 <= v as int <= UIntMax
  }

  /** The outcome of the int64 setter. */
  function Int64Outcome(p: Prop, values: seq<Int64>, busy: bool, numSends: int, hasSlot: bool,
                        filterIds: set<int>): (r: Status)
    requires |values| >= Int64ValsByProp(p)
    ensures r.Ok? ==> IsOffset(p) || p == Radius || p == DirectFilter || p == AuxSendFilter
    ensures IntQueryOnly(p) || p == SampleOffsetLatency ==> r == Err(InvalidOperation)
    ensures Int64AsInt(p) && !(IntMin <= values[0] as int <= IntMax) ==> r == Err(InvalidValue)
  {
    match Int64RouteOf(p)
    case Int64QueryOnly => Err(InvalidOperation)
    case Int64Int =>
      if IntMin <= values[0] as int <= IntMax
      then IntOutcome(p, [values[0] as int as Int32], busy, numSends, hasSlot, filterIds)
      else Err(InvalidValue)
    case Int64UInt =>
      if InUIntRange(values[0])
      then IntOutcome(p, [UIntToInt32(values[0] as int)], busy, numSends, hasSlot, filterIds)
      else Err(InvalidValue)
    case Int64AuxSend =>
      if InUIntRange(values[0]) && InUIntRange(values[1]) && InUIntRange(values[2])
      then IntOutcome(p, [UIntToInt32(values[0] as int), UIntToInt32(values[1] as int),
                          UIntToInt32(values[2] as int)], busy, numSends, hasSlot, filterIds)
      else Err(InvalidValue)
    case Int64AsFloat => FloatOutcome(p, Int64sAsFloats(values, FloatValsByProp(p)), busy)
    case Int64Unknown => Err(InvalidEnum)
  }
}
