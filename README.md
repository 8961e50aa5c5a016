# A verified model of the oalsfxpp effect units and source control

oalsfxpp is a fork of OpenAL Soft that is being ported to C++. This project
models in Dafny the parts of it that carry logic:

- **Echo** (`Alc/effects/echo.cpp`). It has a power-of-two ring buffer,
  read at two taps behind the write offset. The second tap plus the input
  goes through a damping shelf filter. The filtered value times the
  feedback gain is written back, and the two raw taps are panned to the
  output channels. Processing runs in chunks of at most 128 samples.
- **Ring modulator** (`Alc/effects/modulator.cpp`). It has a 24-bit
  fixed-point phase accumulator and selects a sine, sawtooth or square
  waveform. Each of the four effect channels is high-pass filtered,
  modulated from the same starting phase, and mixed through gated gains.
- **Dedicated routing** (`Alc/effects/dedicated.cpp`). The single input
  channel goes to the LFE channel, or for dialogue to the front-centre
  speaker, or else it is panned to the front.
- **Sources and voices** (`OpenAL32/alSource.c`). This covers:
  - voice lookup;
  - the lazy PLAYING to STOPPED demotion of a source whose voice is gone;
  - the four tables of how many values each property takes;
  - the float, int and int64 property setters: their validation, their
    forwarding to one another, and the reference counts of the effect
    slot attached to an auxiliary send;
  - Play and Stop;
  - source initialisation and release;
  - publishing a source's parameters to its voice.
- **Mixer helpers** (`OpenAL32/Include/alu.h`):
  - min/max/clamp over floats, unsigned and signed ints;
  - `lerp`;
  - the 4x4 matrix setters;
  - the choice between the matrix-coefficient (MC) and channel-map (BF)
    gain routines.

Modules: `Alu`, `Mixing` (the silence gate, gated accumulation and chunk
sizes the effects share), `Biquad` (the two-pole filter recurrence),
`Modular` (remainder arithmetic), `Echo`, `Modulator`, `Dedicated`,
`SourceProps` (property enumeration, value-count tables, setter outcomes)
and `AlSource` (sources, voices, the context).

How the model represents things:

- **Samples and gains** are `real`.
- **Quantities computed by routines outside the model** are parameters.
  These are trigonometric values, panning gains and shelf coefficients.
- **Masking.** `x & (len - 1)` with `len` a power of two, and
  `x & (2^24 - 1)`, are the Euclidean remainder.
- **Integers** are unbounded. The 32-bit unsigned and signed types are
  newtypes.
- **Stateful code.** The effect states, sources, voices, slots and the
  context are classes whose methods update their fields in place. Each
  method is proved against a function of the old state: `EchoRun`,
  `Phase`, `FilterRun`, `RoutedGains`, `Snapshot`, `Attached`,
  `FloatOutcome`/`IntOutcome`/`Int64Outcome`.

The echo's second tap is measured from the first: `Alc/effects/echo.cpp:101-103`
adds the truncated L/R delay in samples to the first tap, which is the
truncated delay plus one. A 0.1 s delay and a 0.05 s L/R delay at 48 kHz
therefore give taps of 4801 and `4801 + 2400 = 7201` samples, which is what
`Echo.EchoState.Update` states.

Behaviour of the code as written that the model keeps:

- **The float setter accepts few properties.** It accepts only the
  offsets, the radius and the stereo angles. Pitch, gain, position and
  every other property it receives directly, or through the int and int64
  setters, fall through to INVALID_ENUM.
- **The auxiliary send ignores the slot name.** The setter accepts the
  call when the slot name is 0 or when the device has no effect slot.
  Either way it attaches the device's slot, which may be none.

## Model

| member | source | states |
|---|---|---|
| Alu.Minf | OpenAL32/Include/alu.h:165-166 | the result is one of the two arguments and at most both |
| Alu.Maxf | OpenAL32/Include/alu.h:167-168 | the result is one of the two arguments and at least both |
| Alu.Clampf | OpenAL32/Include/alu.h:169-170 | lies in [lo, hi] when lo <= hi; is v itself when v is already in range; is hi when hi < lo |
| Alu.Minu | OpenAL32/Include/alu.h:172-173 | unsigned min: one of its arguments, at most both |
| Alu.Maxu | OpenAL32/Include/alu.h:174-175 | unsigned max: one of its arguments, at least both |
| Alu.Clampu | OpenAL32/Include/alu.h:176-177 | unsigned clamp: in range when lo <= hi, identity on in-range values, hi when hi < lo |
| Alu.Mini | OpenAL32/Include/alu.h:179-180 | signed min: one of its arguments, at most both |
| Alu.Maxi | OpenAL32/Include/alu.h:181-182 | signed max: one of its arguments, at least both |
| Alu.Clampi | OpenAL32/Include/alu.h:183-184 | signed clamp: in range when lo <= hi, identity on in-range values, hi when hi < lo |
| Alu.Lerp | OpenAL32/Include/alu.h:187-190 | mu = 0 gives val1, mu = 1 gives val2, and mu in [0, 1] gives a value between the two |
| Alu.MatrixSetRow | OpenAL32/Include/alu.h:22-29 | the four entries of the row get the four values; every other row is unchanged |
| Alu.MatrixSet | OpenAL32/Include/alu.h:31-40 | entry (r, c) gets argument 4r + c: all sixteen entries, in row-major order |
| Alu.ComputeAmbientGains | OpenAL32/Include/alu.h:234-247 | calls the MC routine iff coeff_count > 0, otherwise the BF routine; passes the buffer's coefficients or channel map, its channel count and the gain |
| Alu.ComputePanningGains | OpenAL32/Include/alu.h:259-273 | the same dispatch for panning; the MC call also gets coeff_count as its coefficient count |
| Alu.ComputeFirstOrderGains | OpenAL32/Include/alu.h:286-300 | the same dispatch for first-order gains, passing the matrix row through |
| Mixing.AddScaled | Alc/effects/echo.cpp:192-195 | adds samples[i] * gain to one output channel over one range; every other entry is unchanged |
| Mixing.MixGated | Alc/effects/dedicated.cpp:111-119 | each channel below the channel count gets its gated contribution for every sample; all other channels and samples are unchanged |
| Mixing.ChunkSize | Alc/effects/echo.cpp:157 | the chunk is min(128, remaining): positive while samples remain, never more than what remains |
| Mixing.Chunks | Alc/effects/echo.cpp:153-157 | the chunk sizes of a block sum to the sample count; each is in (0, 128]; all but the last are exactly 128 |
| Biquad.RunHistory | Alc/effects/echo.cpp:175-179 | after at least two samples the history holds the last two inputs and the last two outputs |
| Biquad.RunResumes | Alc/effects/echo.cpp:150-151 | filtering a later chunk from the state the earlier chunks left is the same as filtering the block without a break |
| Biquad.FilteredResumes | Alc/effects/modulator.cpp:128 | the output of a resumed chunk is the output of the whole block at that sample |
| Biquad.ProcessSplits | Alc/effects/modulator.cpp:120-148 | filtering a block in two calls, the second resumed from the state the first left, gives the outputs and the end state of one call over the whole block, wherever the block is cut |
| Echo.NextPowerOfTwo | Alc/effects/echo.cpp:80 | the result is a power of two, at least n, and the smallest such (half of it is below n) |
| Echo.Slot | Alc/effects/echo.cpp:162-181 | every index used for a read or a write is in [0, length) |
| Echo.SlotShift | Alc/effects/echo.cpp:147 | positions a whole length apart use the same slot |
| Echo.DistinctSlots | Alc/effects/echo.cpp:181 | two positions less than a length apart use different slots |
| Echo.ShelfGain | Alc/effects/echo.cpp:122 | the shelf gain is max(1 - damping, 0.0625): never below -24 dB, and at most 1 for non-negative damping |
| Echo.EchoRun | Alc/effects/echo.cpp:159-183 | n samples advance the offset by exactly n and keep the buffer length |
| Echo.StepKeepsOther | Alc/effects/echo.cpp:181 | one sample changes no slot but the one at the write offset |
| Echo.StepWritesAt | Alc/effects/echo.cpp:181 | that slot receives the filter output times the feedback gain |
| Echo.RingKeepsWrite | Alc/effects/echo.cpp:181 | a written value stays in its slot for up to a buffer length of later samples |
| Echo.RingKeepsOld | Alc/effects/echo.cpp:181 | a slot behind the start offset keeps its old value until the writes reach it |
| Echo.TapReadsWrite | Alc/effects/echo.cpp:162-165 | a tap of delay t <= length read at sample n >= t returns the value written at sample n - t |
| Echo.TapReadsOld | Alc/effects/echo.cpp:162-165 | a tap of delay t read at sample n < t returns what the ring held before the block |
| Echo.TapDelayed | Alc/effects/echo.cpp:162-165 | both cases for one tap |
| Echo.TapsReadDelayedFeedback | Alc/effects/echo.cpp:159-183 | both taps read the feedback written t samples earlier, or the earlier ring contents |
| Echo.TapsFitBuffer | Alc/effects/echo.cpp:101-103 | with the delays within their maxima, 1 <= tap1 <= tap2 < the length the device update chose |
| Echo.StepSample | Alc/effects/echo.cpp:161-183 | one sample on the array ring: reads, the write and the offset advance are exactly those of the value-level step |
| Echo.RunChunk | Alc/effects/echo.cpp:159-184 | the per-sample loop of a chunk: the ring, offset and history become those of the run up to the chunk's end, and the collected taps are the chunk's taps |
| Echo.MixTaps | Alc/effects/echo.cpp:186-207 | each output channel below the channel count gets both taps through its own gated gains; the other channels and samples are unchanged |
| Echo.ProcessBlock | Alc/effects/echo.cpp:153-210 | after the chunk loop, the ring, offset and history are those of running the echo over the block, and each output sample receives both gated taps |
| Echo.EchoState.Construct | Alc/effects/echo.cpp:56-66 | the buffer is empty, both taps and the offset are 0, and the filter is cleared |
| Echo.EchoState.UpdateDevice | Alc/effects/echo.cpp:73-89 | the length is the next power of two of (max delay + 1) + (max L/R delay + 1), so the state stays Valid with a power-of-two ring; the buffer is reallocated only when the length changes; every entry is 0; nothing else changes |
| Echo.EchoState.Update | Alc/effects/echo.cpp:91-139 | tap1 = delay + 1 and tap2 = tap1 + lr_delay; the pan sides are swapped for negative spread; the feedback gain is the configured feedback; the filter gets the shelf coefficients for max(1 - damping, 0.0625) and keeps its history |
| Echo.EchoState.Process | Alc/effects/echo.cpp:141-216 | the ring, offset and persisted filter history end as the echo run over the input says; taps, gains and feedback are unchanged; outputs below the channel count receive both gated taps and the rest are unchanged |
| Modulator.SelectWaveform | Alc/effects/modulator.cpp:73-84 | SINUSOID selects the sine, SAWTOOTH the saw, and any other code the square, each iff |
| Modulator.SawFunc | Alc/effects/modulator.cpp:191-195 | the saw is index / 2^24, which lies in [0, 1) for an in-range index |
| Modulator.SquareFunc | Alc/effects/modulator.cpp:197-201 | the square wave is 0 or 1 |
| Modulator.SquareIsUpperHalf | Alc/effects/modulator.cpp:197-201 | over one period the square wave is 1 exactly in the upper half (bit 23 set) |
| Modulator.Phase | Alc/effects/modulator.cpp:147-151 | after at least one advance the phase is in [0, 2^24) |
| Modulator.PhaseClosed | Alc/effects/modulator.cpp:147-151 | n advances give (index + n * step) mod 2^24 |
| Modulator.PhaseCompose | Alc/effects/modulator.cpp:121-153 | advancing chunk by chunk equals advancing over the whole block |
| Modulator.PhasePeriodic | Alc/effects/modulator.cpp:159-161 | the phase repeats every 2^24 samples |
| Modulator.SilentChannelUnchanged | Alc/effects/modulator.cpp:131-144 | an output channel none of whose gains is above the silence threshold receives nothing |
| Modulator.Modulate | Alc/effects/modulator.cpp:203-217 | sample i is multiplied by the waveform at phase advance i + 1; the caller's phase is a copy and does not advance |
| Modulator.Advance | Alc/effects/modulator.cpp:147-151 | the stored phase advances once per sample of the chunk |
| Modulator.ChunkSampleAgrees | Alc/effects/modulator.cpp:126-129 | a chunk's sample, filtered and modulated from the state and phase the earlier chunks left, is the block's sample |
| Modulator.ProcessChannel | Alc/effects/modulator.cpp:126-145 | one effect channel of a chunk: its filter advances over the chunk and each gated output receives its modulated samples |
| Modulator.ProcessChunk | Alc/effects/modulator.cpp:126-145 | every effect channel of a chunk is modulated from the same starting phase and mixed through its own gains |
| Modulator.ProcessBlock | Alc/effects/modulator.cpp:121-154 | over the whole block the phase ends sampleCount advances on, each filter ends as filtering its channel leaves it, and outputs below the channel count receive every effect channel's gated modulated sample |
| Modulator.ModulatorState.Construct | Alc/effects/modulator.cpp:47-56 | the phase is 0, the step is 1, and every filter's history is cleared |
| Modulator.ModulatorState.Update | Alc/effects/modulator.cpp:68-113 | selects the waveform; a computed step of 0 becomes 1, so step >= 1; every filter gets b0 = a, b1 = -a, b2 = 0, a1 = -a, a2 = 0 and keeps its history; each effect channel's gains are the first-order gains of its identity row |
| Modulator.ModulatorState.Process | Alc/effects/modulator.cpp:115-155 | the phase ends at Phase(old index, step, N), stays in [0, 2^24), and equals (index + N * step) mod 2^24 by PhaseClosed; the filters advance over their channels; the outputs receive the gated modulated samples |
| Dedicated.OnlyAtRoutesToOneChannel | Alc/effects/dedicated.cpp:72-92 | with single-index gains, channel c receives v * Gain when it is that index and the gain is audible, and nothing otherwise |
| Dedicated.RoutedToAtMostOneChannel | Alc/effects/dedicated.cpp:72-92 | apart from dialogue panned to the front, any non-zero gain is Gain at the channel the effect type names |
| Dedicated.DedicatedState.Construct | Alc/effects/dedicated.cpp:42-51 | every gain is 0 |
| Dedicated.DedicatedState.DeviceUpdate | Alc/effects/dedicated.cpp:58-61 | always succeeds and changes nothing |
| Dedicated.DedicatedState.Update | Alc/effects/dedicated.cpp:63-103 | the gains are RoutedGains of the effect type. The output buffer is the real output for a found LFE or front-centre channel, the dry buffer for dialogue without one, and unchanged otherwise |
| Dedicated.DedicatedState.Process | Alc/effects/dedicated.cpp:105-120 | out[c][i] = old + in[0][i] * gains[c] for c below the channel count, i below the sample count, and an audible gain; everything else is unchanged |
| SourceProps.FloatValsByProp | OpenAL32/alSource.c:179-243 | single-value properties give 1; position, velocity and direction give 3; orientation gives 6; stereo angles give 2; the auxiliary send and unknown enums give 0 |
| SourceProps.DoubleValsByProp | OpenAL32/alSource.c:244-306 | the same, except that the seconds offset with latency gives 2 |
| SourceProps.IntValsByProp | OpenAL32/alSource.c:308-369 | single-value properties, the buffer and the direct filter give 1; vectors and the auxiliary send give 3; orientation gives 6; stereo angles and unknown enums give 0 |
| SourceProps.Int64ValsByProp | OpenAL32/alSource.c:370-432 | the same as the int table, except that the sample offset with latency gives 2 |
| SourceProps.TablesPairUp | OpenAL32/alSource.c:179-432 | float and double differ only at the seconds offset with latency; int and int64 differ only at the sample offset with latency |
| SourceProps.CountsAtMostSix | OpenAL32/alSource.c:179-432 | every count is between 0 and 6 |
| SourceProps.ToUInt32 | OpenAL32/alSource.c:605 | the (ALuint) cast: identity on [0, UINT_MAX], plus 2^32 on negative ints |
| SourceProps.UIntToInt32 | OpenAL32/alSource.c:749 | storing a value in [0, UINT_MAX] into an int and casting it back to unsigned gives the value back |
| SourceProps.FloatRouteOf | OpenAL32/alSource.c:454-532 | which case of the float setter handles each property, each case as an iff |
| SourceProps.IntRouteOf | OpenAL32/alSource.c:542-704 | which case of the int setter handles each property, each as an iff |
| SourceProps.Int64RouteOf | OpenAL32/alSource.c:712-807 | which case of the int64 setter handles each property, each as an iff |
| SourceProps.NoRouteLoops | OpenAL32/alSource.c:504-520 | a property one setter forwards is never forwarded back, so the mutual recursion ends |
| SourceProps.FloatOutcome | OpenAL32/alSource.c:449-533 | INVALID_OPERATION exactly for the four query-only properties and for the forwarded ones the int setter treats as query-only. An offset succeeds iff it is at least 0 and the source is not busy, the radius iff it is finite and at least 0, the stereo angles iff both are finite. INVALID_ENUM exactly for every other property |
| SourceProps.IntOutcome | OpenAL32/alSource.c:535-705 | only offsets, the radius, the direct filter and the auxiliary send can succeed; query-only properties give INVALID_OPERATION; a negative offset gives INVALID_VALUE |
| SourceProps.Int64Outcome | OpenAL32/alSource.c:707-808 | query-only properties give INVALID_OPERATION; an int property outside the int range gives INVALID_VALUE; only the same properties can succeed |
| AlSource.AttachedUpdate | OpenAL32/alSource.c:630-652 | replacing one send moves one count from the slot it held to the slot it now holds |
| AlSource.Source.InitSourceParams | OpenAL32/alSource.c:2153-2187 | stereo angles of +30 and -30 degrees; radius 0; pass-through direct filter; every send with no slot and a pass-through filter; offset 0 with no offset type; undetermined type; INITIAL; parameters clean |
| AlSource.Source.DeinitSource | OpenAL32/alSource.c:2189-2204 | each slot loses one reference per send that held it, and the table is freed; an already-freed table is left alone |
| AlSource.Source.ReplaceSend | OpenAL32/alSource.c:634-637 | the new slot gains a reference and the previous one loses one; every slot's count minus its number of holding sends is kept |
| AlSource.Reported | OpenAL32/alSource.c:157-167 | with a voice the state is returned unchanged; without one, PLAYING becomes STOPPED and every other state is unchanged |
| AlSource.VoicelessSourceNotPlaying | OpenAL32/alSource.c:147-151 | without a voice, the reported state is playing-or-paused iff the source is paused |
| AlSource.GetSourceState | OpenAL32/alSource.c:157-167 | returns the reported state and records it in the source |
| AlSource.Voice.Rewind | OpenAL32/alSource.c:1743-1744 | position and fraction become 0 |
| AlSource.Voice.Resume | OpenAL32/alSource.c:1750 | the voice plays |
| AlSource.Voice.Bind | OpenAL32/alSource.c:1786-1799 | channel count set, step 0, fading flag set, the first channels' direct and send parameters cleared, then bound to the source and playing |
| AlSource.UpdateSourceProps | OpenAL32/alSource.c:2206-2257 | the voice's pending update becomes the source's stereo pan, radius, direct filter and first num_sends sends at call time (latest write wins); the free list loses its head |
| AlSource.Refresh | OpenAL32/alSource.c:2266-2271 | the voice is Refreshed: the flag becomes clean, and the voice takes the snapshot from the head of its free list exactly when the flag was not clean, otherwise keeping its update and free list |
| AlSource.ApplyOffset | OpenAL32/alSource.c:2361-2364 | always fails |
| AlSource.StartVoice | OpenAL32/alSource.c:1772-1800 | the voice is Started on the source: it holds the unconditionally published snapshot, taken from the head of its free list; it is rewound, sized and not fading; the first channels of its direct path and of each send are cleared and the rest kept; it is bound and plays; the source becomes PLAYING and clean |
| AlSource.Context.VoiceIndex | OpenAL32/alSource.c:130-141 | the position of the first voice in use that plays the source, or none iff no voice in use plays it |
| AlSource.Context.GetSourceVoice | OpenAL32/alSource.c:130-141 | returns the first voice in use whose source is s, or null iff there is none; the search changes no voice |
| AlSource.Context.DoUpdateProps | OpenAL32/alSource.c:440-447 | Published: when updates are not deferred and the source is playing or paused with a voice, that voice gets the snapshot, taken from the head of its free list, and no other voice changes; otherwise the source is marked for publishing and no voice changes; source and slot counts are unchanged |
| AlSource.Context.SetOffset | OpenAL32/alSource.c:465-486 | a negative or NaN offset is rejected and nothing changes; otherwise offset and type are stored, and the result is INVALID_VALUE iff the source is busy |
| AlSource.Context.SetRadius | OpenAL32/alSource.c:488-493 | a finite, non-negative radius is stored and Published (the voice's snapshot taken from the head of its free list, or the source marked); anything else is INVALID_VALUE with nothing changed |
| AlSource.Context.SetStereoAngles | OpenAL32/alSource.c:495-501 | finite angles are stored and Published (the voice's snapshot taken from the head of its free list, or the source marked); anything else is INVALID_VALUE |
| AlSource.Context.SetDirectFilter | OpenAL32/alSource.c:577-600 | filter 0 installs the pass-through values and an existing filter installs its own; both are Published (the voice's snapshot taken from the head of its free list, or the source marked); an unknown name is INVALID_VALUE |
| AlSource.Context.PublishProps | OpenAL32/alSource.c:639-653 | a forced publish reaches the voice even with deferred updates, its snapshot taken from the head of the voice's free list; otherwise as DoUpdateProps |
| AlSource.Context.SetAuxSend | OpenAL32/alSource.c:602-656 | the result is the int outcome. On success the send takes the device slot and the filter, the counts move, and a changed slot is published at once |
| AlSource.Context.AttachSend | OpenAL32/alSource.c:630-654 | the send is replaced and the reference counts balance: the new slot gains 1 and the previous one loses 1 |
| AlSource.Context.SetSourcefv | OpenAL32/alSource.c:449-533 | the result is FloatOutcome, and the source shows exactly the change it implies (offset, radius, pan), published as the source publishes it |
| AlSource.Context.SetSourceiv | OpenAL32/alSource.c:535-705 | the result is IntOutcome; only the implied change happens; slot counts stay balanced |
| AlSource.Context.SetSourcei64v | OpenAL32/alSource.c:707-808 | the result is Int64Outcome; only the implied change happens |
| AlSource.Context.FreeSlot | OpenAL32/alSource.c:1762-1771 | the first voice in use with no source, or else the next unused one |
| AlSource.Context.Play | OpenAL32/alSource.c:1714-1807 | n != 1 is INVALID_VALUE with nothing changed. Otherwise Played: a playing source's voice is rewound and every other field of it kept; a paused source's voice is set playing and every other field kept, so it resumes where it stood; a voiceless source is Started on the free voice with its parameters published, and the count grows when that voice was unused. The source ends PLAYING on its own voice, the voice table stays valid, and every other voice is unchanged |
| AlSource.Context.PlaySource | OpenAL32/alSource.c:1735-1802 | the loop body of Play with the state it found named: the same Played outcome, in which the kept voice differs from its fields at the call only in the rewound position or the playing flag, and every voice but the one it ends on unchanged |
| AlSource.Context.PlayVoiced | OpenAL32/alSource.c:1738-1752 | a playing source's voice is rewound to 0 with every other field, the playing flag included, kept; a paused one's voice is set playing with every other field, its position included, kept, and the source becomes PLAYING; nothing is published and no other voice changes |
| AlSource.Context.PlayVoiceless | OpenAL32/alSource.c:1754-1800 | the source, reported as not playing, is Started on the free voice and becomes PLAYING and clean; no other voice changes |
| AlSource.Context.StartSource | OpenAL32/alSource.c:1758-1800 | the free voice is Started on the source: snapshot from its free list, position 0, step 0, no fading, the first channels of the direct path and of every send cleared; the count grows iff the voice was unused; no other voice changes |
| AlSource.Context.ClaimVoice | OpenAL32/alSource.c:1762-1771 | returns the free voice and increments the count iff it was unused |
| AlSource.Context.Stop | OpenAL32/alSource.c:1859-1890 | n != 1 is INVALID_VALUE with nothing changed. Otherwise the voice is unbound and stops playing; the state becomes STOPPED unless INITIAL; the offset type is none and the offset 0; no other voice changes |
| AlSource.Context.UpdateAllSourceProps | OpenAL32/alSource.c:2259-2273 | each voice in use is Refreshed against its state at the call, which the ghost parameters name: its source is clean, and it holds the snapshot, taken from the head of its free list, exactly when the source was not clean; unused voices keep their pending update and free list |
| AlSource.Context.RefreshAt | OpenAL32/alSource.c:2266-2271 | one voice is Refreshed; every other voice and the source of every other voice in use keep their update, free list and flag, so voices already refreshed stay so |

## Left out

- **Transcendental and float coefficient math.** The model takes these as
  inputs:
  - `CalcAngleCoeffs`, the panning gains and the first-order gains;
  - the echo's `asin` spread conversion and its high-shelf `set_params`;
  - `sin_func`;
  - the modulator's cos/sqrt filter constant;
  - `DEG2RAD`.
- **Routines whose bodies are not part of this model.**
  `ComputePanningGainsMC`/`BF`, `ComputeFirstOrderGains*`,
  `GetChannelIdxByName` and `next_power_of_2` are specified only by their
  result shape. `next_power_of_2` is modelled as the smallest power of two
  that is at least n.
- **The filter routines.** Three filter routines are given an assumed
  behaviour:
  - `al_filter_state_process_c` (`Alc/effects/modulator.cpp:128`) applies
    the echo's inline two-pole recurrence to each sample of the block and
    carries the history over.
  - `FilterState::clear` (`Alc/effects/echo.cpp:65`) zeroes the history.
  - `FilterState::set_params` (`Alc/effects/echo.cpp:124-128`) installs
    the coefficients and keeps the history.

  `Biquad.FilteredResumes`, `Biquad.ProcessSplits`,
  `Modulator.ChunkSampleAgrees` and the echo's history rest on these
  assumptions.
- **Float rounding.** Samples and gains are exact reals. NaN and the
  infinities exist only in the setters' `Float` values.
- **Float-to-int conversions.** Those of delays and steps are integer
  inputs.
- **Int-to-float conversions** in the setters are taken as exact.
- **Truncate.** It models `(ALint)values[0]` in the float setter. No
  property that reaches the int setter that way is accepted, so its value
  is never used.
- **Context and API plumbing.** This covers `GetContextRef`,
  `ALCcontext_DecRef`, `alSetError`, `LookupSource`, `ERR` logging,
  `al_calloc`/`al_free` and the public `alSource*` entry points. Errors are
  returned as a status instead of being recorded in the context.
  `LookupFilter` is a map from filter names to parameters.
- **Disabled code.** Pause, Rewind, the getters and Queue/Unqueue are
  compiled out and only set INVALID_NAME.
- **Offset stubs.** `ApplyOffset` always fails. `GetSampleOffset`,
  `GetSourceOffset` and `GetSourceSecOffset` are not modelled, so no real
  offset tracking is done.
- **The free list of voice parameter containers** is a sequence, popped
  sequentially in place of the compare-and-swap loop. The retired pending
  update is not put back on the list, since the code only sets its `next`
  field.
- **The device has one source.** Play and Stop act on it, as the code
  does, so a count of one is the only accepted count.
- **Concurrency** between the mixer and the API is not modelled.
- **ModulatorEffectState::do_update_device** does nothing and is not
  modelled.
- **The output buffer pointers** the effects set are modelled only as a
  tag plus a channel count.
- **The values the effect-state constructors leave unset** (echo gains and
  feedback, the modulator's routine) are modelled as value-initialised.
- **Offsets grow without bound.** The echo's write offset and the
  modulator's phase arithmetic use unbounded integers, not 32-bit
  wrap-around.
- AlSource.Context.Play: requires what the code only asserts:
  - a source with a voice is playing or paused, and a paused source has a
    voice;
  - every voice has room for the device's channels and sends;
  - a free voice exists when the source has none.
- AlSource.Context.UpdateAllSourceProps: requires every voice in use to
  have a source. The code reads the source's clean flag before its null
  check, so a free voice in use would be a null dereference. Stop makes
  such a voice: `OpenAL32/alSource.c:1877-1881` clears the voice's source
  without lowering the voice count, and `AlSource.Context.Stop` states the
  same. After a Stop of a source that had a voice, the model therefore
  says nothing about UpdateAllSourceProps until Play binds that voice
  again.
- AlSource.Context.SetAuxSend: the send's filter and slot are written
  together. The code writes the filter before it compares the slots, but
  the comparison does not read the filter.
- AlSource.Context.SetSourcefv: most settable properties, such as pitch,
  gain and position, fall through to INVALID_ENUM. This is what the code
  does in this version; no state is modelled for them.
