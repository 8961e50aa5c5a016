/*
 * Sources and the voices that play them: voice lookup, the lazy
 * PLAYING -> STOPPED demotion of a source that lost its voice, the
 * property setters with their validation and the auxiliary-send slot
 * reference counts, Play and Stop, source initialisation and release,
 * and the publication of a source's parameters to its voice.
 *
 * The device and its context are one object here (`Context`); both Play
 * and Stop act on the device's single source. Parameter containers are
 * values: a voice holds the pending one and a free list of spare ones.
 */
module AlSource {
  import opened Alu
  import opened SourceProps

  /** Reference frequencies of the default (pass-through) filter. Their
    * values come from the filter header, which is not part of this model. */
  const LowPassFreqRef: real := 5000.0
  const HighPassFreqRef: real := 250.0

  datatype FilterParams = FilterParams(gain: real, gainHF: real, hfReference: real,
                                       gainLF: real, lfReference: real)

  /** What an absent filter (name 0) installs: unit gains at the reference
    * frequencies. */
  const PassThrough: FilterParams := FilterParams(1.0, 1.0, LowPassFreqRef, 1.0, HighPassFreqRef)

  const ZeroFilter: FilterParams := FilterParams(0.0, 0.0, 0.0, 0.0, 0.0)

  datatype SourceState = Initial | Playing | Paused | Stopped

  datatype SourceType = Undetermined | Static | Streaming

  datatype Option<T> = None | Some(value: T)

  class EffectSlot {
    /** How many holders keep the slot alive. */
    var ref: int
  }

  /** One auxiliary send: the slot it feeds (or none) and its filter. */
  datatype SendEntry = SendEntry(slot: EffectSlot?, filter: FilterParams)

  /** The parameter snapshot a voice picks up. */
  datatype VoiceProps = VoiceProps(stereoPan: (real, real), radius: real,
                                   direct: FilterParams, sends: seq<SendEntry>)

  /** A channel's mixing parameters: cleared, or whatever the mixer left. */
  datatype ChannelParams = Cleared | Active(state: seq<real>)

  // ---------------------------------------------------------------------
  // Slot reference counting

  /** How many of `sends` feed slot `t`. */
  function Attached(sends: seq<SendEntry>, t: EffectSlot): (n: nat)
    ensures n <= |sends|
    ensures n == 0 <==> forall i :: 0 <= i < |sends| ==> sends[i].slot != t
  {
    if sends == [] then 0
    else Attached(sends[..|sends| - 1], t) + (if sends[|sends| - 1].slot == t then 1 else 0)
  }

  function Indicator(b: bool): (n: nat)
    ensures b <==> n == 1
    ensures !b <==> n == 0
  {
    if b then 1 else 0
  }

  /** Replacing one send moves one count from the slot it held to the slot
    * it now holds. */
  lemma {:induction false} AttachedUpdate(sends: seq<SendEntry>, i: nat, e: SendEntry, t: EffectSlot)
    requires i < |sends|
    ensures Attached(sends[i := e], t) as int
      == Attached(sends, t) as int - Indicator(sends[i].slot == t) + Indicator(e.slot == t)
    decreases |sends|
  {
    var n := |sends| - 1;
    var updated := sends[i := e];
    assert Attached(sends, t) == Attached(sends[..n], t) + Indicator(sends[n].slot == t);
    assert Attached(updated, t) == Attached(updated[..n], t) + Indicator(updated[n].slot == t);
    if i == n {
      assert updated[..n] == sends[..n];
    } else {
      AttachedUpdate(sends[..n], i, e, t);
      assert updated[..n] == sends[..n][i := e];
    }
  }

  /** The same, counted over the first `n` sends, `i` among them. */
  lemma {:induction false} AttachedReplace(sends: seq<SendEntry>, n: nat, i: nat, e: SendEntry, t: EffectSlot)
    requires i < n <= |sends|
    ensures Attached(sends[i := e][..n], t) as int
      == Attached(sends[..n], t) as int - Indicator(sends[i].slot == t) + Indicator(e.slot == t)
  {
    AttachedUpdate(sends[..n], i, e, t);
    assert sends[..n][i := e] == sends[i := e][..n];
  }

  /** One more send counted at the end. */
  lemma {:induction false} AttachedExtend(sends: seq<SendEntry>, i: nat, t: EffectSlot)
    requires i < |sends|
    ensures Attached(sends[..i + 1], t) == Attached(sends[..i], t) + Indicator(sends[i].slot == t)
  {
    assert sends[..i + 1][..i] == sends[..i];
  }

  // ---------------------------------------------------------------------
  // Sources

  /** The parameters the setters write, as one value. */
  datatype SourceParams = SourceParams(offset: Float, offsetType: Option<Prop>, radius: real,
                                       stereoPan: (real, real), direct: FilterParams,
                                       send: seq<SendEntry>)

  class Source {
    var stereoPan: (real, real)
    var radius: real
    var direct: FilterParams
    var send: seq<SendEntry>
    /** False once the send table has been released. */
    var sendAllocated: bool
    var offset: Float
    /** The offset property last set, or none. */
    var offsetType: Option<Prop>
    var sourceType: SourceType
    var state: SourceState
    /** False while a parameter change has not been handed to a voice. */
    var propsClean: bool

    ghost function Params(): SourceParams
      reads this`offset, this`offsetType, this`radius, this`stereoPan, this`direct, this`send
    {
      SourceParams(offset, offsetType, radius, stereoPan, direct, send)
    }

    /** The parameters a voice would receive now. */
    ghost function Snapshot(numSends: nat): VoiceProps
      reads this`stereoPan, this`radius, this`direct, this`send
      requires numSends <= |send|
    {
      VoiceProps(stereoPan, radius, direct, send[..numSends])
    }

    /** The slots the sends hold. */
    ghost function AttachedSlots(): set<EffectSlot>
      reads this`send
    {
      set i | 0 <= i < |send| && send[i].slot != null :: send[i].slot
    }

    /** Initial parameters: stereo angles of +30 and -30 degrees (converted
      * by `deg2rad`, which is outside this model), zero radius, pass-
      * through direct path, `numSends` sends feeding no slot, no offset,
      * undetermined type, INITIAL state, nothing to publish. */
    constructor InitSourceParams(numSends: nat, deg2rad: real -> real)
      ensures stereoPan == (deg2rad(30.0), deg2rad(-30.0)) && radius == 0.0
      ensures direct == PassThrough
      ensures sendAllocated && |send| == numSends
      ensures forall i :: 0 <= i < numSends ==> send[i] == SendEntry(null, PassThrough)
      ensures offset == Finite(0.0) && offsetType == None
      ensures sourceType == Undetermined && state == Initial && propsClean
    {
      stereoPan := (deg2rad(30.0), deg2rad(-30.0));
      radius := 0.0;
      direct := PassThrough;
      // the table starts zero-filled
      var entries := seq(numSends, _ => SendEntry(null, ZeroFilter));
      var i := 0;
      while i < numSends
        invariant 0 <= i <= numSends && |entries| == numSends
        invariant forall k :: 0 <= k < numSends ==>
          entries[k] == if k < i then SendEntry(null, PassThrough) else SendEntry(null, ZeroFilter)
      {
        entries := entries[i := SendEntry(null, PassThrough)];
        i := i + 1;
      }
      send := entries;
      sendAllocated := true;
      offset := Finite(0.0);
      offsetType := None;
      sourceType := Undetermined;
      state := Initial;
      propsClean := true;
    }

    /** Releases the send table: every slot a live send holds loses one
      * reference per send that holds it, and the table is freed. A table
      * already released is left alone. */
    method DeinitSource(numSends: nat)
      requires sendAllocated ==> numSends <= |send|
      modifies this`send, this`sendAllocated, AttachedSlots()`ref
      ensures !sendAllocated
      ensures old(sendAllocated) ==> send == []
      ensures !old(sendAllocated) ==> send == old(send)
      ensures forall t :: t in old(AttachedSlots()) ==>
        t.ref == old(t.ref) - (if old(sendAllocated) then old(Attached(send[..numSends], t)) else 0)
    {
      if sendAllocated {
        ghost var sends0 := send;
        ghost var slots := AttachedSlots();
        var i := 0;
        while i < numSends
          invariant 0 <= i <= numSends <= |send| && |send| == |sends0|
          invariant forall k :: 0 <= k < |send| ==>
            send[k] == if k < i then sends0[k].(slot := null) else sends0[k]
          invariant forall t :: t in slots ==> t.ref == old(t.ref) - Attached(sends0[..i], t)
        {
          var slot := send[i].slot;
          if slot != null {
            assert slot in slots by {
              assert sends0[i].slot == slot;
            }
            slot.ref := slot.ref - 1;
          }
          send := send[i := send[i].(slot := null)];
          forall t | t in slots {
            AttachedExtend(sends0, i, t);
          }
          i := i + 1;
        }
        send := [];
        sendAllocated := false;
      }
    }

    /** Send `i` becomes `e`: the slot `e` feeds gains a reference and
      * the one the send held loses one, so that for every slot of `slots`
      * its count minus the number of the first `n` sends holding it is
      * kept. */
    method ReplaceSend(i: nat, e: SendEntry, n: nat, ghost slots: set<EffectSlot>)
      requires i < n <= |send|
      requires (e.slot != null ==> e.slot in slots) && (send[i].slot != null ==> send[i].slot in slots)
      modifies this`send, slots`ref
      ensures send == old(send)[i := e] && Params() == old(Params()).(send := send)
      ensures forall t :: t in slots ==>
        t.ref - Attached(send[..n], t) == old(t.ref) - Attached(old(send)[..n], t)
      ensures e.slot != old(send[i].slot) && e.slot != null ==> e.slot.ref == old(e.slot.ref) + 1
      ensures e.slot != old(send[i].slot) && old(send[i].slot) != null
        ==> old(send[i].slot).ref == old(send[i].slot.ref) - 1
    {
      var prev := send[i].slot;
      forall t | t in slots {
        AttachedReplace(send, n, i, e, t);
      }
      if e.slot != null {
        e.slot.ref := e.slot.ref + 1;
      }
      if prev != null {
        prev.ref := prev.ref - 1;
      }
      send := send[i := e];
    }
  }

  /** The state reported for a source: a PLAYING source whose voice is gone
    * has stopped; every other state is reported as it is. */
  function Reported(state: SourceState, hasVoice: bool): (r: SourceState)
    ensures hasVoice ==> r == state
    ensures !hasVoice ==> r != Playing
    ensures r == Stopped <==> state == Stopped || (state == Playing && !hasVoice)
  {
    if !hasVoice && state == Playing then Stopped else state
  }

  predicate IsPlayingOrPaused(s: Source)
    reads s`state
  {
    s.state == Playing || s.state == Paused
  }

  /** Without a voice a source is only ever reported paused, never playing;
    * so the check whether to publish parameters can only pass for it when
    * it is paused. */
  lemma VoicelessSourceNotPlaying(state: SourceState)
    ensures (Reported(state, false) == Playing || Reported(state, false) == Paused) <==> state == Paused
  {
  }

  /** Reports the source's state, recording a demotion to STOPPED. */
  method GetSourceState(s: Source, voice: Voice?) returns (st: SourceState)
    modifies s`state
    ensures st == Reported(old(s.state), voice != null)
    ensures s.state == st
  {
    if voice == null {
      if s.state == Playing {
        s.state := Stopped;
        return Stopped;
      }
      return s.state;
    }
    return s.state;
  }

  // ---------------------------------------------------------------------
  // Voices

  class Voice {
    /** The source it plays, or null when free. */
    var source: Source?
    var playing: bool
    var position: int
    var positionFraction: int
    var step: int
    var fading: bool
    var numChannels: int
    var directParams: seq<ChannelParams>
    var sendParams: seq<seq<ChannelParams>>
    /** The parameter container waiting to be applied, if any. */
    var update: Option<VoiceProps>
    var freeList: seq<VoiceProps>

    /** All of the voice's fields, as one value. */
    ghost function Fields(): VoiceFields
      reads this
    {
      VoiceFields(source, playing, position, positionFraction, step, fading, numChannels,
                  directParams, sendParams, update, freeList)
    }

    /** Room for `numChannels` channel parameters on the direct path and on
      * each of `numSends` sends. */
    ghost predicate Shaped(channels: nat, numSends: nat)
      reads this`directParams, this`sendParams
    {
      channels <= |directParams| && numSends <= |sendParams|
      && forall s :: 0 <= s < numSends ==> channels <= |sendParams[s]|
    }

    /** Back to the start of the queue. */
    method Rewind()
      modifies this`position, this`positionFraction
      ensures position == 0 && positionFraction == 0
    {
      position := 0;
      positionFraction := 0;
    }

    /** Lets the mixer play the voice again. */
    method Resume()
      modifies this`playing
      ensures playing
    {
      playing := true;
    }

    /** Binds the voice to `s` and readies it for the mixer: `channels`
      * input channels, no step until the pending update is applied, the
      * first `channels` parameters of the direct path and of each of the
      * first `numSends` sends cleared; then the voice plays. */
    method Bind(s: Source, channels: nat, numSends: nat, startFading: bool)
      requires Shaped(channels, numSends)
      modifies this`numChannels, this`step, this`fading, this`directParams, this`sendParams
      modifies this`source, this`playing
      ensures numChannels == channels && step == 0 && fading == startFading
      ensures directParams == ClearFirst(old(directParams), channels)
      ensures |sendParams| == |old(sendParams)|
      ensures forall k :: 0 <= k < |sendParams| ==>
        sendParams[k] == if k < numSends then ClearFirst(old(sendParams[k]), channels) else old(sendParams[k])
      ensures source == s && playing
    {
      numChannels := channels;
      step := 0;
      fading := startFading;
      directParams := ClearFirst(directParams, channels);
      var k := 0;
      while k < numSends
        invariant 0 <= k <= numSends && |sendParams| == |old(sendParams)|
        invariant forall j :: 0 <= j < |sendParams| ==>
          sendParams[j] == if j < k then ClearFirst(old(sendParams[j]), channels) else old(sendParams[j])
        modifies this`sendParams
      {
        sendParams := sendParams[k := ClearFirst(sendParams[k], channels)];
        k := k + 1;
      }
      source := s;
      playing := true;
    }
  }

  /** The fields of a voice at some moment. */
  datatype VoiceFields = VoiceFields(source: Source?, playing: bool, position: int, positionFraction: int,
                                     step: int, fading: bool, numChannels: int,
                                     directParams: seq<ChannelParams>,
                                     sendParams: seq<seq<ChannelParams>>,
                                     update: Option<VoiceProps>, freeList: seq<VoiceProps>)

  /** `v`, whose fields were `before`, now plays `s` from the start: it
    * holds the snapshot of `s` as its pending update, taken from its free
    * list; it has `channels` input channels and no step until that update
    * is applied; it does not fade; the first `channels` parameters of its
    * direct path and of each of its first `numSends` sends are cleared, the
    * rest kept. */
  ghost predicate Started(v: Voice, s: Source, numSends: nat, channels: nat, before: VoiceFields)
    reads v, s`stereoPan, s`radius, s`direct, s`send
  {
    numSends <= |s.send| && channels <= |before.directParams| && numSends <= |before.sendParams|
    && (forall k :: 0 <= k < numSends ==> channels <= |before.sendParams[k]|)
    && v.source == s && v.playing && v.position == 0 && v.positionFraction == 0
    && v.update == Some(s.Snapshot(numSends)) && v.freeList == Popped(before.freeList)
    && v.numChannels == channels && v.step == 0 && !v.fading
    && v.directParams == ClearFirst(before.directParams, channels)
    && |v.sendParams| == |before.sendParams|
    && forall k :: 0 <= k < |v.sendParams| ==>
      v.sendParams[k] == if k < numSends then ClearFirst(before.sendParams[k], channels)
                         else before.sendParams[k]
  }

  /** The free list after taking one container from its head, if any. */
  function Popped(free: seq<VoiceProps>): (r: seq<VoiceProps>)
    ensures |free| > 0 ==> |r| == |free| - 1 && forall i :: 0 <= i < |r| ==> r[i] == free[i + 1]
    ensures |free| == 0 ==> r == []
  {
    if free == [] then [] else free[1..]
  }

  /** The first `n` entries set to Cleared, the rest kept. */
  function ClearFirst(ps: seq<ChannelParams>, n: nat): (r: seq<ChannelParams>)
    requires n <= |ps|
    ensures |r| == |ps|
    ensures forall c :: 0 <= c < |ps| ==> r[c] == if c < n then Cleared else ps[c]
  {
    seq(n, _ => Cleared) + ps[n..]
  }

  /** Copies the source's current parameters into a container (taken from
    * the voice's free list, or a new one when the list is empty) and makes
    * it the voice's pending update, replacing the previous one. */
  method UpdateSourceProps(s: Source, voice: Voice, numSends: nat)
    requires numSends <= |s.send|
    modifies voice`update, voice`freeList
    ensures voice.update == Some(s.Snapshot(numSends))
    ensures voice.freeList == Popped(old(voice.freeList))
  {
    var props: VoiceProps;
    if voice.freeList == [] {
      props := VoiceProps((0.0, 0.0), 0.0, ZeroFilter, seq(numSends, _ => SendEntry(null, ZeroFilter)));
    } else {
      props := voice.freeList[0];
      voice.freeList := voice.freeList[1..];
    }
    props := props.(stereoPan := s.stereoPan, radius := s.radius, direct := s.direct);
    var sends: seq<SendEntry> := [];
    var i := 0;
    while i < numSends
      invariant 0 <= i <= numSends && sends == s.send[..i]
    {
      sends := sends + [s.send[i]];
      i := i + 1;
    }
    voice.update := Some(props.(sends := sends));
  }

  /** Publishes the parameters of the voice's source when they are still
    * to be published, and marks them as published. */
  method Refresh(voice: Voice, numSends: nat)
    requires voice.source != null && numSends <= |voice.source.send|
    modifies voice.source`propsClean, voice`update, voice`freeList
    ensures voice.source.propsClean
    ensures voice.update == if old(voice.source.propsClean) then old(voice.update)
                            else Some(voice.source.Snapshot(numSends))
    ensures voice.freeList == if old(voice.source.propsClean) then old(voice.freeList)
                              else Popped(old(voice.freeList))
    ensures Refreshed(voice, numSends, old(voice.source.propsClean), old(voice.update), old(voice.freeList))
  {
    var src := voice.source;
    var oldPropsClean := src.propsClean;
    src.propsClean := true;
    if !oldPropsClean {
      UpdateSourceProps(src, voice, numSends);
    }
  }

  /** `v`, whose source's flag was `clean` and whose pending update and
    * free list were `update` and `free`, is refreshed: its source is
    * marked as published, and the voice holds the source's snapshot,
    * taken from the head of its free list, exactly when the source was
    * not clean before. */
  ghost predicate Refreshed(v: Voice, numSends: nat, clean: bool, update: Option<VoiceProps>,
                            free: seq<VoiceProps>)
    reads v`source, v`update, v`freeList
    reads if v.source == null then {} else {v.source}`propsClean
    reads if v.source == null then {} else {v.source}`stereoPan
    reads if v.source == null then {} else {v.source}`radius
    reads if v.source == null then {} else {v.source}`direct
    reads if v.source == null then {} else {v.source}`send
  {
    v.source != null && v.source.propsClean && numSends <= |v.source.send|
    && if clean then v.update == update && v.freeList == free
       else v.update == Some(v.source.Snapshot(numSends)) && v.freeList == Popped(free)
  }

  /** Applying a stored offset to a voice fails in this version, and
    * leaves the voice as it was. */
  method ApplyOffset(s: Source, voice: Voice) returns (applied: bool)
    ensures !applied
  {
    applied := false;
  }

  /** Starts `s` on `voice`: the source's parameters are published to
    * the voice unconditionally, the voice is rewound (applying a stored
    * offset, which fails, so it never starts fading), sized for `channels`
    * input channels and cleared, and both play. */
  method StartVoice(s: Source, voice: Voice, numSends: nat, channels: nat)
    requires numSends <= |s.send| && voice.Shaped(channels, numSends)
    modifies voice, s`propsClean, s`state
    ensures Started(voice, s, numSends, channels, old(voice.Fields()))
    ensures s.state == Playing && s.propsClean
  {
    voice.playing := false;
    s.propsClean := true;
    UpdateSourceProps(s, voice, numSends);
    voice.position := 0;
    voice.positionFraction := 0;
    var startFading := false;
    if s.offsetType != None {
      var _ := ApplyOffset(s, voice);
      startFading := voice.position != 0 || voice.positionFraction != 0;
    }
    voice.Bind(s, channels, numSends, startFading);
    s.state := Playing;
  }

  // ---------------------------------------------------------------------
  // The context: voices, device settings and the device's source

  /** What a setter call changed in a source. */
  datatype Change =
    | NoChange
    | OffsetTo(offset: Float, kind: Prop)
    | RadiusTo(radius: real)
    | PanTo(left: real, right: real)
    | DirectTo(filter: FilterParams)
    | SendTo(index: int, entry: SendEntry)

  /** The parameters after change `c`. */
  function Apply(p: SourceParams, c: Change): SourceParams
  {
    match c
    case NoChange => p
    case OffsetTo(offset, kind) => p.(offset := offset, offsetType := Some(kind))
    case RadiusTo(radius) => p.(radius := radius)
    case PanTo(left, right) => p.(stereoPan := (left, right))
    case DirectTo(filter) => p.(direct := filter)
    case SendTo(i, e) => if 0 <= i < |p.send| then p.(send := p.send[i := e]) else p
  }

  class Context {
    var voices: seq<Voice>
    var voiceCount: int
    var deferUpdates: bool
    var numAuxSends: int
    /** The device's source, which Play and Stop act on. */
    var source: Source
    /** The device's effect slot, if any. */
    var effectSlot: EffectSlot?
    var dryNumChannels: int
    /** The filters that exist, by name. */
    var filters: map<int, FilterParams>

    /** A context with no voice in use and updates not deferred. */
    constructor (source: Source, voices: seq<Voice>, numAuxSends: nat, effectSlot: EffectSlot?,
                 dryNumChannels: nat, filters: map<int, FilterParams>)
      ensures this.source == source && this.voices == voices && voiceCount == 0 && !deferUpdates
      ensures this.numAuxSends == numAuxSends && this.effectSlot == effectSlot
      ensures this.dryNumChannels == dryNumChannels && this.filters == filters
    {
      this.source := source;
      this.voices := voices;
      voiceCount := 0;
      deferUpdates := false;
      this.numAuxSends := numAuxSends;
      this.effectSlot := effectSlot;
      this.dryNumChannels := dryNumChannels;
      this.filters := filters;
    }

    /** The counts fit: the first `voiceCount` voices are in use. */
    ghost predicate Sized()
      reads this
    {
      0 <= voiceCount <= |voices| && 0 <= numAuxSends <= IntMax && 0 <= dryNumChannels
    }

    /** The voice table: distinct voices, the first `voiceCount` in use, and
      * no source bound to two of them. */
    ghost predicate Valid()
      reads this, voices`source
    {
      Sized()
      && (forall i, j :: 0 <= i < j < |voices| ==> voices[i] != voices[j])
      && (forall i, j :: 0 <= i < j < voiceCount && voices[i].source != null ==>
            voices[i].source != voices[j].source)
    }

    /** The position of the first voice in use that plays `s`, if one does. */
    ghost function VoiceIndex(s: Source?): (k: Option<nat>)
      reads this, voices`source
      requires 0 <= voiceCount <= |voices|
      ensures k.Some? ==> k.value < voiceCount && voices[k.value].source == s
      ensures k.Some? ==> forall j :: 0 <= j < k.value ==> voices[j].source != s
      ensures k.None? <==> forall j :: 0 <= j < voiceCount ==> voices[j].source != s
    {
      if exists i :: 0 <= i < voiceCount && voices[i].source == s then
        FirstPlayingExists(s);
        var i :| 0 <= i < voiceCount && voices[i].source == s
                 && forall j :: 0 <= j < i ==> voices[j].source != s;
        Some(i)
      else
        None
    }

    lemma FirstPlayingExists(s: Source?)
      requires 0 <= voiceCount <= |voices|
      requires exists i :: 0 <= i < voiceCount && voices[i].source == s
      ensures exists i :: 0 <= i < voiceCount && voices[i].source == s
                          && forall j :: 0 <= j < i ==> voices[j].source != s
    {
      var k := 0;
      while voices[k].source != s
        invariant 0 <= k < voiceCount
        invariant forall j :: 0 <= j < k ==> voices[j].source != s
        decreases voiceCount - k
      {
        k := k + 1;
      }
    }

    /** The source has a voice and is playing or paused. */
    ghost predicate Busy(s: Source)
      reads this, voices`source, s`state
      requires 0 <= voiceCount <= |voices|
    {
      IsPlayingOrPaused(s) && VoiceIndex(s).Some?
    }

    /** The source's send table can be published. */
    ghost predicate Ready(s: Source)
      reads this, s`sendAllocated, s`send
    {
      s.sendAllocated && 0 <= numAuxSends <= |s.send|
    }

    /** The slots a setter may touch: those the source's sends hold and the
      * device's slot. */
    ghost function SlotFrame(s: Source): set<EffectSlot>
      reads this, s`send
    {
      s.AttachedSlots() + (if effectSlot == null then {} else {effectSlot})
    }

    /** Filter name 0 (no filter) or the name of an existing filter. */
    predicate ValidFilter(id: Int32)
      reads this
    {
      id == 0 || ToUInt32(id as int) in filters
    }

    /** The filter a name selects: name 0 is the pass-through filter. */
    function FilterFor(id: Int32): FilterParams
      reads this
      requires ValidFilter(id)
    {
      if id == 0 then PassThrough else filters[ToUInt32(id as int)]
    }

    /** The voice table is the same, and every voice but `except` kept its
      * pending update and its free list. */
    twostate predicate OthersKept(new except: Voice?)
      reads this, voices`update, voices`freeList
    {
      voices == old(voices)
      && forall v :: v in voices && v != except ==>
        v.update == old(v.update) && v.freeList == old(v.freeList)
    }

    /** A parameter change was published: when the source is playing or
      * paused, has a voice, and updates are not deferred (or the change
      * forces it), the voice's pending update is the source's snapshot,
      * taken from the head of its free list, and no other voice changed; otherwise the source is marked as still to be
      * published and no voice changed. */
    twostate predicate Published(s: Source, force: bool)
      reads this, voices`source, voices`update, voices`freeList
      reads s`state, s`propsClean, s`stereoPan, s`radius, s`direct, s`send
      requires Sized()
    {
      var k := VoiceIndex(s);
      if (force || !deferUpdates) && IsPlayingOrPaused(s) && k.Some? then
        OthersKept(voices[k.value]) && numAuxSends <= |s.send|
        && voices[k.value].update == Some(s.Snapshot(numAuxSends))
        && voices[k.value].freeList == Popped(old(voices[k.value].freeList))
        && s.propsClean == old(s.propsClean)
      else
        !s.propsClean && OthersKept(null)
    }

    /** Nothing was published and nothing marked for publishing. */
    twostate predicate Kept(s: Source)
      reads this, voices`update, voices`freeList, s`propsClean
    {
      s.propsClean == old(s.propsClean) && OthersKept(null)
    }

    /** The first voice playing `s`, or null: the search runs over the
      * voices in use, in order. */
    method GetSourceVoice(s: Source?) returns (voice: Voice?)
      requires Sized()
      ensures voice == null <==> forall i :: 0 <= i < voiceCount ==> voices[i].source != s
      ensures voice == null <==> VoiceIndex(s).None?
      ensures voice != null ==> voice == voices[VoiceIndex(s).value] && voice.source == s
      ensures forall v :: v in voices ==> unchanged(v)
    {
      var i := 0;
      while i < voiceCount
        invariant 0 <= i <= voiceCount
        invariant forall k :: 0 <= k < i ==> voices[k].source != s
      {
        if voices[i].source == s {
          return voices[i];
        }
        i := i + 1;
      }
      return null;
    }

    /** Hands the source's parameters to its voice when it is playing or
      * paused and updates are not deferred; otherwise marks them as still
      * to be published. */
    method DoUpdateProps(s: Source)
      requires Sized() && Ready(s)
      modifies s`propsClean, voices`update, voices`freeList
      ensures Published(s, false)
      ensures s.Params() == old(s.Params()) && SlotsKept(old(SlotFrame(s)))
    {
      var voice: Voice? := null;
      if !deferUpdates && IsPlayingOrPaused(s) {
        voice := GetSourceVoice(s);
      }
      if voice != null {
        UpdateSourceProps(s, voice, numAuxSends);
      } else {
        s.propsClean := false;
      }
    }

    // -------------------------------------------------------------------
    // Setters

    /** What a float setter call changed, given its result. */
    function FloatChange(prop: Prop, values: seq<Float>, r: Status): Change
      requires |values| >= FloatValsByProp(prop)
    {
      match FloatRouteOf(prop)
      case FloatOffset => if AtLeastZero(values[0]) then OffsetTo(values[0], prop) else NoChange
      case FloatRadius => if r.Ok? && values[0].Finite? then RadiusTo(values[0].value) else NoChange
      case FloatAngles =>
        if r.Ok? && values[0].Finite? && values[1].Finite? then PanTo(values[0].value, values[1].value)
        else NoChange
      case _ => NoChange
    }

    /** What an int setter call changed, given its result. */
    function IntChange(prop: Prop, values: seq<Int32>, r: Status): Change
      reads this
      requires |values| >= IntValsByProp(prop)
    {
      match IntRouteOf(prop)
      case IntOffset => if values[0] >= 0 then OffsetTo(Finite(values[0] as real), prop) else NoChange
      case IntDirectFilter =>
        if r.Ok? && ValidFilter(values[0]) then DirectTo(FilterFor(values[0])) else NoChange
      case IntAuxSend =>
        if r.Ok? && 0 <= values[1] as int < numAuxSends && ValidFilter(values[2])
        then SendTo(values[1] as int, SendEntry(effectSlot, FilterFor(values[2])))
        else NoChange
      case IntAsFloat => FloatChange(prop, IntsAsFloats(values, FloatValsByProp(prop)), r)
      case _ => NoChange
    }

    /** What an int64 setter call changed, given its result. */
    function Int64Change(prop: Prop, values: seq<Int64>, r: Status): Change
      reads this
      requires |values| >= Int64ValsByProp(prop)
    {
      match Int64RouteOf(prop)
      case Int64Int =>
        if IntMin <= values[0] as int <= IntMax then IntChange(prop, [values[0] as int as Int32], r)
        else NoChange
      case Int64UInt =>
        if InUIntRange(values[0]) then IntChange(prop, [UIntToInt32(values[0] as int)], r) else NoChange
      case Int64AuxSend =>
        if InUIntRange(values[0]) && InUIntRange(values[1]) && InUIntRange(values[2])
        then IntChange(prop, [UIntToInt32(values[0] as int), UIntToInt32(values[1] as int),
                              UIntToInt32(values[2] as int)], r)
        else NoChange
      case Int64AsFloat => FloatChange(prop, Int64sAsFloats(values, FloatValsByProp(prop)), r)
      case _ => NoChange
    }

    /** Send `i` was replaced by `e`: every slot's reference count minus the
      * number of live sends holding it is as before (`slots` are the slots
      * involved), and the change was published, forced when the slot
      * changed, in case the old one is about to go away. */
    twostate predicate SendReplaced(s: Source, i: int, e: SendEntry, slots: set<EffectSlot>)
      reads this, voices`source, voices`update, voices`freeList, slots
      reads s`state, s`propsClean, s`stereoPan, s`radius, s`direct, s`send
      requires Sized()
    {
      0 <= i < numAuxSends <= |old(s.send)|
      && s.send == old(s.send)[i := e]
      && (forall t :: t in slots ==>
            t.ref - Attached(s.send[..numAuxSends], t) == old(t.ref) - Attached(old(s.send)[..numAuxSends], t))
      && Published(s, e.slot != old(s.send)[i].slot)
    }

    /** The source shows change `c` and nothing else: the field it names
      * has its new value and every other one its old value; an offset is
      * only stored, a radius, stereo angles or a direct filter are
      * published, and a new send is published with its reference counts
      * balanced; no slot count changes otherwise. */
    twostate predicate Applied(s: Source, c: Change, slots: set<EffectSlot>)
      reads this, voices`source, voices`update, voices`freeList, slots
      reads s`state, s`propsClean, s`stereoPan, s`radius, s`direct, s`send, s`offset, s`offsetType
      requires Sized()
    {
      s.Params() == Apply(old(s.Params()), c)
      && match c
         case NoChange => Kept(s) && SlotsKept(slots)
         case OffsetTo(_, _) => Kept(s) && SlotsKept(slots)
         case SendTo(i, e) => SendReplaced(s, i, e, slots)
         case _ => Published(s, false) && SlotsKept(slots)
    }

    /** Stores an offset of kind `prop` when it is at least zero; it is then
      * refused anyway when the source is busy, since applying an offset to
      * a voice always fails in this version. */
    method SetOffset(s: Source, prop: Prop, value: Float) returns (r: Status)
      requires Sized() && IsOffset(prop)
      modifies s`offset, s`offsetType
      ensures r == if !AtLeastZero(value) || old(Busy(s)) then Err(InvalidValue) else Ok
      ensures Applied(s, if AtLeastZero(value) then OffsetTo(value, prop) else NoChange, old(SlotFrame(s)))
    {
      if !AtLeastZero(value) {
        return Err(InvalidValue);
      }
      s.offsetType := Some(prop);
      s.offset := value;
      if IsPlayingOrPaused(s) {
        var voice := GetSourceVoice(s);
        if voice != null {
          var applied := ApplyOffset(s, voice);
          if !applied {
            return Err(InvalidValue);
          }
        }
      }
      return Ok;
    }

    /** A finite radius of at least zero is stored and published. */
    method SetRadius(s: Source, value: Float) returns (r: Status)
      requires Sized() && Ready(s)
      modifies s`radius, s`propsClean, voices`update, voices`freeList
      ensures r == if AtLeastZero(value) && IsFinite(value) then Ok else Err(InvalidValue)
      ensures Applied(s, if r.Ok? then RadiusTo(value.value) else NoChange, old(SlotFrame(s)))
    {
      if !(AtLeastZero(value) && IsFinite(value)) {
        return Err(InvalidValue);
      }
      s.radius := value.value;
      DoUpdateProps(s);
      return Ok;
    }

    /** Finite stereo angles are stored and published. */
    method SetStereoAngles(s: Source, left: Float, right: Float) returns (r: Status)
      requires Sized() && Ready(s)
      modifies s`stereoPan, s`propsClean, voices`update, voices`freeList
      ensures r == if IsFinite(left) && IsFinite(right) then Ok else Err(InvalidValue)
      ensures Applied(s, if r.Ok? then PanTo(left.value, right.value) else NoChange, old(SlotFrame(s)))
    {
      if !(IsFinite(left) && IsFinite(right)) {
        return Err(InvalidValue);
      }
      s.stereoPan := (left.value, right.value);
      DoUpdateProps(s);
      return Ok;
    }

    /** Filter name 0 or an existing filter is installed on the direct path
      * (its gains and reference frequencies, or the pass-through ones) and
      * published. */
    method SetDirectFilter(s: Source, id: Int32) returns (r: Status)
      requires Sized() && Ready(s)
      modifies s`direct, s`propsClean, voices`update, voices`freeList
      ensures r == if ValidFilter(id) then Ok else Err(InvalidValue)
      ensures Applied(s, if r.Ok? then DirectTo(FilterFor(id)) else NoChange, old(SlotFrame(s)))
    {
      if !ValidFilter(id) {
        return Err(InvalidValue);
      }
      s.direct := FilterFor(id);
      DoUpdateProps(s);
      return Ok;
    }

    /** Publishes the source's parameters; with `force`, a playing or
      * paused source publishes them whether or not updates are deferred,
      * marking them as still to be published when it has no voice. */
    method PublishProps(s: Source, force: bool)
      requires Sized() && Ready(s)
      modifies s`propsClean, voices`update, voices`freeList
      ensures Published(s, force)
      ensures s.Params() == old(s.Params())
    {
      if force && IsPlayingOrPaused(s) {
        var voice := GetSourceVoice(s);
        if voice != null {
          UpdateSourceProps(s, voice, numAuxSends);
        } else {
          s.propsClean := false;
        }
      } else {
        DoUpdateProps(s);
      }
    }

    /** The auxiliary send setter, from (slot name, send index, filter
      * name). The index must be below the send count, the slot name 0
      * unless the device has no slot, and the filter 0 or an existing one.
      * The send then takes the filter and the device's slot; that slot
      * gains a reference and the one the send held loses one. A changed
      * slot on a playing or paused source is published at once, in case
      * the old slot is about to go away. */
    method SetAuxSend(s: Source, values: seq<Int32>) returns (r: Status)
      requires Sized() && Ready(s) && |values| >= 3
      modifies s`send, s`propsClean, voices`update, voices`freeList, SlotFrame(s)`ref
      ensures r == IntOutcome(AuxSendFilter, values, old(Busy(s)), numAuxSends, effectSlot != null, filters.Keys)
      ensures Applied(s, IntChange(AuxSendFilter, values, r), old(SlotFrame(s)))
    {
      ghost var slots := SlotFrame(s);
      var slot := effectSlot;
      if !(ToUInt32(values[1] as int) < ToUInt32(numAuxSends)
           && (values[0] == 0 || slot == null)
           && ValidFilter(values[2])) {
        return Err(InvalidValue);
      }
      // the filter is written before the slot is compared; it plays no
      // part in the comparison, so both are written together here
      var i := values[1] as int;
      var e := SendEntry(slot, FilterFor(values[2]));
      AttachSend(s, i, e, slots);
      r := Ok;
      assert IntChange(AuxSendFilter, values, r) == SendTo(i, e);
    }

    /** Send `i` becomes `e`, with the reference counts moved; a changed
      * slot on a playing or paused source is published at once, anything
      * else as usual. */
    method AttachSend(s: Source, i: nat, e: SendEntry, ghost slots: set<EffectSlot>)
      requires Sized() && Ready(s) && i < numAuxSends
      requires (e.slot != null ==> e.slot in slots) && (s.send[i].slot != null ==> s.send[i].slot in slots)
      modifies s`send, s`propsClean, voices`update, voices`freeList, slots`ref
      ensures s.Params() == Apply(old(s.Params()), SendTo(i, e))
      ensures SendReplaced(s, i, e, slots)
    {
      // the source compares the slots first, then moves the counts and the
      // slot in either branch
      var changed := e.slot != s.send[i].slot;
      s.ReplaceSend(i, e, numAuxSends, slots);
      assert s.Params() == Apply(old(s.Params()), SendTo(i, e));
      PublishProps(s, changed);
    }

    /** The float setter. Query-only properties are refused; offsets, the
      * radius and the stereo angles go to their helpers; properties held as
      * integers are passed to the int setter (which accepts none of them);
      * all others are refused as unknown. */
    method SetSourcefv(s: Source, prop: Prop, values: seq<Float>) returns (r: Status)
      requires Sized() && Ready(s) && |values| >= FloatValsByProp(prop)
      modifies s`offset, s`offsetType, s`radius, s`stereoPan, s`direct, s`send, s`propsClean
      modifies voices`update, voices`freeList, SlotFrame(s)`ref
      decreases if FloatRouteOf(prop) == FloatAsInt then 1 else 0
      ensures r == FloatOutcome(prop, values, old(Busy(s)))
      ensures Applied(s, FloatChange(prop, values, r), old(SlotFrame(s)))
    {
      match FloatRouteOf(prop)
      case FloatQueryOnly =>
        r := Err(InvalidOperation);
      case FloatOffset =>
        r := SetOffset(s, prop, values[0]);
        assert FloatChange(prop, values, r) == if AtLeastZero(values[0]) then OffsetTo(values[0], prop) else NoChange;
      case FloatRadius =>
        r := SetRadius(s, values[0]);
        assert FloatChange(prop, values, r) == if r.Ok? then RadiusTo(values[0].value) else NoChange;
      case FloatAngles =>
        r := SetStereoAngles(s, values[0], values[1]);
        assert FloatChange(prop, values, r) == if r.Ok? then PanTo(values[0].value, values[1].value) else NoChange;
      case FloatAsInt =>
        // the value is truncated to an int, which no property reaching the
        // int setter this way uses
        NoRouteLoops(prop);
        r := SetSourceiv(s, prop, [Truncate(values[0])]);
        assert FloatChange(prop, values, r) == IntChange(prop, [Truncate(values[0])], r);
      case FloatUnknown =>
        r := Err(InvalidEnum);
    }

    /** The int setter. Query-only properties are refused; offsets, the
      * direct filter and the auxiliary send go to their helpers; single
      * values and vectors held as floats are passed to the float setter;
      * all others are refused as unknown. */
    method SetSourceiv(s: Source, prop: Prop, values: seq<Int32>) returns (r: Status)
      requires Sized() && Ready(s) && |values| >= IntValsByProp(prop)
      modifies s`offset, s`offsetType, s`radius, s`stereoPan, s`direct, s`send, s`propsClean
      modifies voices`update, voices`freeList, SlotFrame(s)`ref
      decreases if IntRouteOf(prop) == IntAsFloat then 1 else 0
      ensures r == IntOutcome(prop, values, old(Busy(s)), numAuxSends, effectSlot != null, filters.Keys)
      ensures Applied(s, IntChange(prop, values, r), old(SlotFrame(s)))
    {
      match IntRouteOf(prop)
      case IntQueryOnlyRoute =>
        r := Err(InvalidOperation);
      case IntOffset =>
        r := SetOffset(s, prop, Finite(values[0] as real));
        assert IntChange(prop, values, r)
          == if values[0] >= 0 then OffsetTo(Finite(values[0] as real), prop) else NoChange;
      case IntDirectFilter =>
        r := SetDirectFilter(s, values[0]);
        assert IntChange(prop, values, r) == if r.Ok? then DirectTo(FilterFor(values[0])) else NoChange;
      case IntAuxSend =>
        r := SetAuxSend(s, values);
        assert prop == AuxSendFilter;
      case IntAsFloat =>
        NoRouteLoops(prop);
        r := SetSourcefv(s, prop, IntsAsFloats(values, FloatValsByProp(prop)));
        assert IntChange(prop, values, r) == FloatChange(prop, IntsAsFloats(values, FloatValsByProp(prop)), r);
      case IntUnknown =>
        r := Err(InvalidEnum);
    }

    /** The int64 setter: integer properties must fit an int and names a
      * 32-bit unsigned value before they are passed to the int setter;
      * float properties are passed to the float setter; query-only
      * properties are refused, and all others as unknown. */
    method SetSourcei64v(s: Source, prop: Prop, values: seq<Int64>) returns (r: Status)
      requires Sized() && Ready(s) && |values| >= Int64ValsByProp(prop)
      modifies s`offset, s`offsetType, s`radius, s`stereoPan, s`direct, s`send, s`propsClean
      modifies voices`update, voices`freeList, SlotFrame(s)`ref
      ensures r == Int64Outcome(prop, values, old(Busy(s)), numAuxSends, effectSlot != null, filters.Keys)
      ensures Applied(s, Int64Change(prop, values, r), old(SlotFrame(s)))
    {
      match Int64RouteOf(prop)
      case Int64QueryOnly =>
        r := Err(InvalidOperation);
      case Int64Int =>
        if !(IntMin <= values[0] as int <= IntMax) {
          r := Err(InvalidValue);
        } else {
          r := SetSourceiv(s, prop, [values[0] as int as Int32]);
          assert Int64Change(prop, values, r) == IntChange(prop, [values[0] as int as Int32], r);
        }
      case Int64UInt =>
        if !InUIntRange(values[0]) {
          r := Err(InvalidValue);
        } else {
          r := SetSourceiv(s, prop, [UIntToInt32(values[0] as int)]);
          assert Int64Change(prop, values, r) == IntChange(prop, [UIntToInt32(values[0] as int)], r);
        }
      case Int64AuxSend =>
        if !(InUIntRange(values[0]) && InUIntRange(values[1]) && InUIntRange(values[2])) {
          r := Err(InvalidValue);
        } else {
          ghost var ints := [UIntToInt32(values[0] as int), UIntToInt32(values[1] as int),
                             UIntToInt32(values[2] as int)];
          r := SetSourceiv(s, prop, [UIntToInt32(values[0] as int), UIntToInt32(values[1] as int),
                                     UIntToInt32(values[2] as int)]);
          assert Int64Change(prop, values, r) == IntChange(prop, ints, r);
        }
      case Int64AsFloat =>
        NoRouteLoops(prop);
        r := SetSourcefv(s, prop, Int64sAsFloats(values, FloatValsByProp(prop)));
        assert Int64Change(prop, values, r) == FloatChange(prop, Int64sAsFloats(values, FloatValsByProp(prop)), r);
      case Int64Unknown =>
        r := Err(InvalidEnum);
    }

    // -------------------------------------------------------------------
    // Play and Stop

    /** Where Play puts a source that has no voice: the first voice in use
      * that plays nothing, or else the next unused one. */
    ghost function FreeSlot(): (k: nat)
      reads this, voices`source
      requires Sized()
      ensures k <= voiceCount
      ensures k < voiceCount ==> voices[k].source == null
      ensures forall j :: 0 <= j < k ==> voices[j].source != null
    {
      match VoiceIndex(null)
      case Some(k) => k
      case None => voiceCount
    }

    /** What Play asserts of the device's source: a source with a voice is
      * playing or paused, and a paused one has a voice. */
    ghost predicate StateAgrees()
      reads this, voices`source, source`state
      requires Sized()
    {
      (VoiceIndex(source).Some? ==> IsPlayingOrPaused(source))
      && (source.state == Paused ==> VoiceIndex(source).Some?)
    }

    /** Every voice has room for the device's channels and sends. */
    ghost predicate VoicesShaped()
      reads this, voices
      requires Sized()
    {
      forall j :: 0 <= j < |voices| ==> voices[j].Shaped(dryNumChannels, numAuxSends)
    }

    /** Plays the device's source; only a count of one is accepted. */
    method Play(n: int) returns (r: Status)
      requires Valid() && Ready(source) && VoicesShaped() && StateAgrees()
      requires VoiceIndex(source).None? ==> FreeSlot() < |voices|
      modifies this`voiceCount, voices, source`state, source`propsClean
      ensures r == if n == 1 then Ok else Err(InvalidValue)
      ensures n != 1 ==> voiceCount == old(voiceCount) && unchanged(voices) && unchanged(source)
      ensures n == 1 ==> Played(old(VoiceIndex(source)), old(source.state), old(FreeSlot()), old(voiceCount),
                                old(source.propsClean), old(voices[PlayTarget()].Fields()))
      ensures n == 1 ==> forall v :: v in voices && v != voices[old(PlayTarget())] ==> unchanged(v)
    {
      if n != 1 {
        return Err(InvalidValue);
      }
      PlaySource(VoiceIndex(source), source.state, FreeSlot(), voiceCount, source.propsClean,
                 PlayTarget(), voices[PlayTarget()].Fields());
      r := Ok;
    }

    /** The voice Play leaves the source on: its own, or the free one. */
    ghost function PlayTarget(): (t: nat)
      reads this, voices`source
      requires Sized() && (VoiceIndex(source).None? ==> FreeSlot() < |voices|)
      ensures t < |voices|
    {
      match VoiceIndex(source)
      case Some(k) => k
      case None => FreeSlot()
    }

    /** The source plays on a voice of its own and the voice table still
      * holds. With a voice `k`, whose fields were `before`, it kept that
      * voice: rewound and otherwise untouched when it was playing, set
      * playing and otherwise untouched (so resumed where it stood) when it
      * was paused, and nothing published. Without one it
      * was started on voice `free`, whose fields were `before`, with its
      * parameters published; the voice count grew when that was the next
      * unused voice. */
    ghost predicate Played(k: Option<nat>, state: SourceState, free: nat, count: int, clean: bool,
                           before: VoiceFields)
      reads this, voices, source
    {
      Sized() && Valid() && StateAgrees() && source.state == Playing
      && match k
         case Some(k) =>
           VoiceIndex(source) == Some(k) && voiceCount == count && source.propsClean == clean
           && (state == Playing ==> voices[k].Fields() == before.(position := 0, positionFraction := 0))
           && (state == Paused ==> voices[k].Fields() == before.(playing := true))
         case None =>
           VoiceIndex(source) == Some(free) && source.propsClean
           && Started(voices[free], source, numAuxSends, dryNumChannels, before)
           && voiceCount == if free == count then count + 1 else count
    }

    /** A playing source restarts from the beginning, a paused one resumes,
      * and any other is started on a free voice. The ghost parameters
      * record what Play found: the source's voice `k`, its state `st`, the
      * free voice `free`, the voice count, the source's published flag, the
      * voice `target` it ends on and that voice's fields. */
    method PlaySource(ghost k: Option<nat>, ghost st: SourceState, ghost free: nat, ghost count: int,
                      ghost clean: bool, ghost target: nat, ghost before: VoiceFields)
      requires Valid() && Ready(source) && VoicesShaped() && StateAgrees()
      requires VoiceIndex(source).None? ==> FreeSlot() < |voices|
      requires k == VoiceIndex(source) && st == source.state && free == FreeSlot() && count == voiceCount
      requires clean == source.propsClean && target == PlayTarget() && before == voices[target].Fields()
      modifies this`voiceCount, voices, source`state, source`propsClean
      ensures Played(k, st, free, count, clean, before)
      ensures forall v :: v in voices && v != voices[target] ==> unchanged(v)
    {
      var voice := GetSourceVoice(source);
      if voice != null {
        PlayVoiced(voice, k, st, free, count, clean, before);
      } else {
        PlayVoiceless(k, st, free, count, clean, before);
      }
    }

    /** A source with a voice is playing or paused: a playing one goes back
      * to the start of its voice, a paused one plays on from where it
      * stopped. */
    method PlayVoiced(voice: Voice, ghost k: Option<nat>, ghost st: SourceState, ghost free: nat, ghost count: int,
                      ghost clean: bool, ghost before: VoiceFields)
      requires Valid() && StateAgrees() && k == VoiceIndex(source) && k.Some? && voice == voices[k.value]
      requires source.state == st && voiceCount == count && source.propsClean == clean && voice.Fields() == before
      modifies voice`position, voice`positionFraction, voice`playing, source`state
      ensures Played(k, st, free, count, clean, before)
      ensures forall v :: v in voices && v != voice ==> unchanged(v)
    {
      var reported := GetSourceState(source, voice);
      if reported == Playing {
        voice.Rewind();
      } else if reported == Paused {
        voice.Resume();
        source.state := Playing;
      } else {
        assert false;
      }
    }

    /** A source without a voice is neither paused nor, once its state is
      * read, playing: it starts on a free voice. */
    method PlayVoiceless(ghost k: Option<nat>, ghost st: SourceState, ghost free: nat, ghost count: int,
                         ghost clean: bool, ghost before: VoiceFields)
      requires Valid() && Ready(source) && VoicesShaped() && StateAgrees()
      requires k == VoiceIndex(source) == None && FreeSlot() == free < |voices| && voiceCount == count
      requires voices[free].Fields() == before
      modifies this`voiceCount, voices, source`state, source`propsClean
      ensures Played(k, st, free, count, clean, before)
      ensures forall v :: v in voices && v != voices[free] ==> unchanged(v)
    {
      var _ := GetSourceState(source, null);
      StartSource();
    }

    /** Starts the device's source, which has no voice, on the first voice
      * in use that plays nothing or else on the next unused one. */
    method StartSource()
      requires Valid() && Ready(source) && VoicesShaped()
      requires VoiceIndex(source).None? && FreeSlot() < |voices|
      modifies this`voiceCount, voices, source`state, source`propsClean
      ensures voices == old(voices) && Valid() && VoicesShaped() && Ready(source)
      ensures voiceCount == if old(FreeSlot()) == old(voiceCount) then old(voiceCount) + 1 else old(voiceCount)
      ensures VoiceIndex(source) == Some(old(FreeSlot()))
      ensures source.state == Playing && source.propsClean
      ensures Started(voices[old(FreeSlot())], source, numAuxSends, dryNumChannels, old(voices[FreeSlot()].Fields()))
      ensures forall v :: v in voices && v != voices[old(FreeSlot())] ==> unchanged(v)
    {
      ghost var k := FreeSlot();
      var voice := ClaimVoice();
      StartVoice(source, voice, numAuxSends, dryNumChannels);
      BoundFree(k);
      ShapesKept(k);
    }

    /** Re-shaping voice `k` alone, within the device's sizes, keeps every
      * voice shaped. */
    twostate lemma ShapesKept(k: nat)
      requires old(Sized()) && old(VoicesShaped()) && Sized() && voices == old(voices) && k < |voices|
      requires numAuxSends == old(numAuxSends) && dryNumChannels == old(dryNumChannels)
      requires voices[k].Shaped(dryNumChannels, numAuxSends)
      requires forall j :: 0 <= j < |voices| && j != k ==>
        voices[j].directParams == old(voices[j].directParams) && voices[j].sendParams == old(voices[j].sendParams)
      ensures VoicesShaped()
    {
    }

    /** Binding the source, which had no voice, to free voice `k` keeps the
      * voice table valid and makes `k` the source's voice. */
    twostate lemma BoundFree(k: nat)
      requires old(Valid()) && old(VoiceIndex(source)).None? && old(FreeSlot()) == k
      requires Sized() && voices == old(voices) && source == old(source) && k < voiceCount
      requires voiceCount == if k == old(voiceCount) then old(voiceCount) + 1 else old(voiceCount)
      requires voices[k].source == source
      requires forall j :: 0 <= j < |voices| && j != k ==> voices[j].source == old(voices[j].source)
      ensures Valid() && VoiceIndex(source) == Some(k)
    {
    }

    /** The voice Play starts a voiceless source on: the first voice in
      * use that plays nothing, or else the next unused one, which then
      * counts as in use. */
    method ClaimVoice() returns (voice: Voice)
      requires Sized() && FreeSlot() < |voices|
      modifies this`voiceCount
      ensures Sized() && voice == voices[old(FreeSlot())]
      ensures voiceCount == if old(FreeSlot()) == old(voiceCount) then old(voiceCount) + 1 else old(voiceCount)
    {
      var free := GetSourceVoice(null);
      if free == null {
        voice := voices[voiceCount];
        voiceCount := voiceCount + 1;
      } else {
        voice := free;
      }
    }

    /** Stops the device's source; only a count of one is accepted. Its
      * voice, if any, is released; a source that was ever played becomes
      * STOPPED, one still INITIAL stays so; the stored offset is cleared. */
    method Stop(n: int) returns (r: Status)
      requires Valid()
      modifies voices`source, voices`playing, source`state, source`offsetType, source`offset
      ensures r == if n == 1 then Ok else Err(InvalidValue)
      ensures n != 1 ==> unchanged(voices) && unchanged(source)
      ensures Valid() && voices == old(voices)
      ensures n == 1 ==> StateAgrees() && VoiceIndex(source).None?
      ensures n == 1 ==> source.state == if old(source.state) == Initial then Initial else Stopped
      ensures n == 1 ==> source.offsetType == None && source.offset == Finite(0.0)
      ensures n == 1 && old(VoiceIndex(source)).Some? ==>
        var v := voices[old(VoiceIndex(source)).value];
        v.source == null && !v.playing
      ensures n == 1 ==> forall v :: v in voices && (old(VoiceIndex(source)).None? || v != voices[old(VoiceIndex(source)).value])
                            ==> unchanged(v)
    {
      if n != 1 {
        return Err(InvalidValue);
      }
      ghost var k := VoiceIndex(source);
      var voice := GetSourceVoice(source);
      if voice != null {
        voice.source := null;
        voice.playing := false;
      }
      Unbound(k);
      if source.state != Initial {
        source.state := Stopped;
      }
      source.offsetType := None;
      source.offset := Finite(0.0);
      r := Ok;
    }

    /** Unbinding the source's voice `k`, if it had one, keeps the voice
      * table valid and leaves the source without a voice. */
    twostate lemma Unbound(k: Option<nat>)
      requires old(Valid()) && k == old(VoiceIndex(source))
      requires Sized() && voices == old(voices) && voiceCount == old(voiceCount) && source == old(source)
      requires k.Some? ==> voices[k.value].source == null
      requires forall j :: 0 <= j < |voices| && (k.None? || j != k.value) ==>
        voices[j].source == old(voices[j].source)
      ensures Valid() && VoiceIndex(source).None?
    {
    }

    /** Publishes every voice's source whose parameters are still to be
      * published, marking every one as published. Every voice in use must
      * play a source: the source reads the flag before it checks for none.
      * The ghost parameters name, per voice, its source's flag, its
      * pending update and its free list at the call. */
    method UpdateAllSourceProps(ghost clean: seq<bool>, ghost update: seq<Option<VoiceProps>>,
                                ghost free: seq<seq<VoiceProps>>)
      requires Valid()
      requires forall j :: 0 <= j < voiceCount ==>
        voices[j].source != null && numAuxSends <= |voices[j].source.send|
      requires |clean| == voiceCount && |update| == |voices| && |free| == |voices|
      requires forall j :: 0 <= j < voiceCount ==> clean[j] == voices[j].source.propsClean
      requires forall j :: 0 <= j < |voices| ==> update[j] == voices[j].update && free[j] == voices[j].freeList
      modifies set j | 0 <= j < voiceCount :: voices[j].source`propsClean
      modifies voices`update, voices`freeList
      ensures forall j :: 0 <= j < voiceCount ==> Refreshed(voices[j], numAuxSends, clean[j], update[j], free[j])
      ensures forall j :: voiceCount <= j < |voices| ==> voices[j].update == update[j] && voices[j].freeList == free[j]
    {
      var pos := 0;
      while pos < voiceCount
        invariant 0 <= pos <= voiceCount
        invariant forall j :: 0 <= j < pos ==> Refreshed(voices[j], numAuxSends, clean[j], update[j], free[j])
        invariant forall j :: pos <= j < voiceCount ==> voices[j].source.propsClean == clean[j]
        invariant forall j :: pos <= j < |voices| ==> voices[j].update == update[j] && voices[j].freeList == free[j]
      {
        RefreshAt(pos, clean, update, free);
        pos := pos + 1;
      }
    }

    /** One step of the loop above: voice `pos` is refreshed; no other
      * voice, nor the source of any other voice in use, changes, so a voice
      * already refreshed stays so. */
    method RefreshAt(pos: nat, ghost clean: seq<bool>, ghost update: seq<Option<VoiceProps>>,
                     ghost free: seq<seq<VoiceProps>>)
      requires Valid() && pos < voiceCount
      requires forall j :: 0 <= j < voiceCount ==>
        voices[j].source != null && numAuxSends <= |voices[j].source.send|
      requires |clean| == voiceCount && |update| == |voices| && |free| == |voices|
      requires clean[pos] == voices[pos].source.propsClean
      requires update[pos] == voices[pos].update && free[pos] == voices[pos].freeList
      modifies {voices[pos].source}`propsClean, {voices[pos]}`update, {voices[pos]}`freeList
      ensures Refreshed(voices[pos], numAuxSends, clean[pos], update[pos], free[pos])
      ensures forall j :: 0 <= j < voiceCount && j != pos ==>
        old(Refreshed(voices[j], numAuxSends, clean[j], update[j], free[j])) ==>
        Refreshed(voices[j], numAuxSends, clean[j], update[j], free[j])
      ensures forall j :: 0 <= j < |voices| && j != pos ==>
        voices[j].update == old(voices[j].update) && voices[j].freeList == old(voices[j].freeList)
      ensures forall j :: 0 <= j < voiceCount && j != pos ==>
        voices[j].source.propsClean == old(voices[j].source.propsClean)
    {
      Refresh(voices[pos], numAuxSends);
    }
  }

  /** The slots kept their reference counts. */
  twostate predicate SlotsKept(slots: set<EffectSlot>)
    reads slots
  {
    forall t :: t in slots ==> t.ref == old(t.ref)
  }

  /** A float converted to an int, rounding toward zero; conversions of
    * infinities and NaN are undefined in C and give 0 here. */
  function Truncate(f: Float): (i: Int32)
  {
    if f.Finite? && IntMin as real <= f.value < (IntMax + 1) as real then
      if f.value >= 0.0 then f.value.Floor as Int32 else -((-f.value).Floor) as Int32
    else 0
  }
}
