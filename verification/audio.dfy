/** The procedural audio service with its signal processing stripped away:
    the lazily created context and master gain, volume and mute, the ambient
    drone's start/stop with its delayed teardown, and the guard shape of the
    one-shot effects (services/audioService.ts). */
module Audio {
  import opened Draws

  datatype Option<T> = None | Some(value: T)

  /** A scheduled change of a gain parameter. */
  datatype GainEvent =
    | SetValue(value: real, time: real)
    | LinearRamp(target: real, time: real)

  /** The audio nodes the ambient drone keeps: tone generators (voices and
      LFOs) with an optional scheduled stop, and gain stages with their
      initial value and scheduled changes. */
  datatype Node =
    | Oscillator(frequency: real, detune: real, stopAt: Option<real>)
    | Gain(value: real, events: seq<GainEvent>)

  /** The service's module state. `master` is None until the context and the
      master gain exist, and then holds the last target scheduled on the master
      gain. `pendingTeardowns` counts the teardown timers that `stopAmbient`
      has set and that have not fired yet. */
  datatype AudioState = AudioState(
    master: Option<real>,
    currentVolume: real,
    isMuted: bool,
    isAmbientPlaying: bool,
    ambientNodes: seq<Voice>,
    pendingTeardowns: nat)

  /** The state when the page loads. */
  const Initial: AudioState := AudioState(None, 0.5, false, false, [], 0)

  /** The drone's five tones: C3, G3, B3, E4, G4. */
  const AmbientFreqs: seq<real> := [130.81, 196.00, 246.94, 329.63, 392.00]

  /** The nodes one drone voice keeps: tone, gain, LFO, LFO depth. */
  const NodesPerVoice: nat := 4

  /** The gain each voice fades in to. */
  const VoiceLevel: real := 0.03

  /** The depth of each voice's breathing modulation. */
  const LfoDepth: real := 0.01

  /** Stop: the fade-out length, the tone stop delay and the teardown delay, in seconds. */
  const FadeOut: real := 2.0
  const StopDelay: real := 2.1
  const TeardownDelay: real := 2.2

  /** The gain the master stage should be heading for. */
  function Audible(s: AudioState): real
  {
    if s.isMuted then 0.0 else s.currentVolume
  }

  /** The invariant of the service state: the master gain, once it exists,
      heads for the muted-or-volume level; the drone holds its 20 nodes
      exactly while it is flagged as playing, and it only plays through an
      existing master gain. */
  predicate Valid(s: AudioState)
  {
    && (s.master.Some? ==> s.master.value == Audible(s))
    && (s.isAmbientPlaying ==> NodeCount(s.ambientNodes) == NodesPerVoice * |AmbientFreqs| && s.master.Some?)
    && (!s.isAmbientPlaying ==> s.ambientNodes == [])
  }

  lemma InitialValid()
    ensures Valid(Initial)
    ensures Initial.master.None?
  {
  }

  /** `getAudioContext`: the first call creates the context and the master
      gain, whose gain starts at the muted-or-volume level; later calls change
      nothing. */
  function GetAudioContext(s: AudioState): (r: AudioState)
    ensures r.master.Some?
    ensures s.master.None? ==> r == s.(master := Some(Audible(s)))
    ensures s.master.Some? ==> r == s
    ensures Valid(s) ==> Valid(r)
  {
    if s.master.None? then s.(master := Some(Audible(s))) else s
  }

  /** `getOutputNode`: ensures the context exists and reports whether there is
      a master gain to connect to. */
  function GetOutputNode(s: AudioState): (r: (AudioState, bool))
    ensures r.0 == GetAudioContext(s)
    ensures r.1
  {
    var s' := GetAudioContext(s);
    (s', s'.master.Some?)
  }

  /** `setMasterVolume`: always records the volume; retargets the master gain
      only when it exists and sound is not muted. */
  function SetMasterVolume(s: AudioState, volume: real): (r: AudioState)
    ensures r.currentVolume == volume
    ensures r.isMuted == s.isMuted
    ensures r.master.Some? <==> s.master.Some?
    ensures s.isMuted ==> r.master == s.master
    ensures Valid(s) ==> Valid(r)
    ensures r.isAmbientPlaying == s.isAmbientPlaying && r.ambientNodes == s.ambientNodes
    ensures r.pendingTeardowns == s.pendingTeardowns
  {
    var s' := s.(currentVolume := volume);
    if s.master.Some? && !s.isMuted then s'.(master := Some(volume)) else s'
  }

  /** `toggleMute`: records the flag and, when the master gain exists,
      retargets it to silence or to the recorded volume. */
  function ToggleMute(s: AudioState, muted: bool): (r: AudioState)
    ensures r.isMuted == muted
    ensures r.currentVolume == s.currentVolume
    ensures s.master.Some? ==> r.master == Some(if muted then 0.0 else s.currentVolume)
    ensures s.master.None? ==> r.master.None?
    ensures Valid(s) ==> Valid(r)
    ensures r.isAmbientPlaying == s.isAmbientPlaying && r.ambientNodes == s.ambientNodes
    ensures r.pendingTeardowns == s.pendingTeardowns
  {
    var s' := s.(isMuted := muted);
    if s.master.Some? then s'.(master := Some(Audible(s'))) else s'
  }

  /** Muting and then unmuting heads back to the last volume set, including a
      volume set while muted. */
  lemma {:induction false} MuteUnmuteRestoresVolume(s: AudioState, v: real)
    requires s.master.Some?
    ensures ToggleMute(ToggleMute(SetMasterVolume(s, v), true), false).master == Some(v)
    ensures ToggleMute(SetMasterVolume(ToggleMute(s, true), v), false).master == Some(v)
    ensures SetMasterVolume(ToggleMute(s, true), v).master == Some(0.0)
  {
  }

  /** The random choices of one drone voice: its detune, then its LFO rate. */
  datatype VoiceDraw = VoiceDraw(detune: Draw, lfoRate: Draw)

  /** One drone voice: the four nodes `startAmbient` keeps for one frequency,
      in the order it pushes them. */
  datatype Voice = Voice(tone: Node, gain: Node, lfo: Node, lfoDepth: Node)

  /** Drone voice `i`: its tone plays AmbientFreqs[i] with a detune, its gain
      is set to 0 now and ramps linearly to 0.03 over 3 + 0.5 i seconds, its
      LFO has a random rate, and its LFO depth is a fixed 0.01. */
  function NewVoice(now: real, i: nat, d: VoiceDraw): (v: Voice)
    requires i < |AmbientFreqs|
    ensures VoiceShape(v, now, i)
  {
    Voice(Oscillator(AmbientFreqs[i], d.detune * 4.0 - 2.0, None),
          Gain(1.0, [SetValue(0.0, now), LinearRamp(VoiceLevel, now + 3.0 + (i as real) * 0.5)]),
          Oscillator(0.1 + d.lfoRate * 0.2, 0.0, None),
          Gain(LfoDepth, []))
  }

  /** What voice i looks like right after the drone starts at `now`: its
      tone plays AmbientFreqs[i] detuned within [-2, 2) cents, its gain fades
      in from 0 to 0.03 ending at now + 3 + 0.5 i, its LFO runs at 0.1 to
      0.3 Hz with depth 0.01, and no tone generator is scheduled to stop. */
  predicate VoiceShape(v: Voice, now: real, i: nat)
    requires i < |AmbientFreqs|
  {
    && v.tone.Oscillator?
    && v.tone.frequency == AmbientFreqs[i]
    && -2.0 <= v.tone.detune < 2.0
    && v.tone.stopAt.None?
    && v.gain == Gain(1.0, [SetValue(0.0, now), LinearRamp(0.03, now + 3.0 + 0.5 * (i as real))])
    && v.lfo.Oscillator?
    && 0.1 <= v.lfo.frequency < 0.3
    && v.lfo.stopAt.None?
    && v.lfoDepth == Gain(0.01, [])
  }

  /** The voices `startAmbient` appends, one per frequency in order, each
      shaped as VoiceShape describes. */
  function AmbientVoices(now: real, draws: nat -> VoiceDraw): (vs: seq<Voice>)
    ensures |vs| == |AmbientFreqs|
    ensures forall i :: 0 <= i < |vs| ==> VoiceShape(vs[i], now, i)
  {
    var vs := seq(|AmbientFreqs|, i requires 0 <= i < |AmbientFreqs| => NewVoice(now, i, draws(i)));
    assert forall i :: 0 <= i < |vs| ==> vs[i] == NewVoice(now, i, draws(i));
    vs
  }

  /** The number of audio nodes the drone keeps. */
  function NodeCount(voices: seq<Voice>): nat
  {
    NodesPerVoice * |voices|
  }

  /** `startAmbient`: a no-op apart from creating the context when the drone
      is already flagged as playing; otherwise it sets the flag and appends the
      voices' nodes. */
  function StartAmbient(s: AudioState, now: real, draws: nat -> VoiceDraw): (r: AudioState)
    ensures s.isAmbientPlaying ==> r == GetAudioContext(s)
    ensures !s.isAmbientPlaying ==>
              && r.isAmbientPlaying
              && r.ambientNodes == s.ambientNodes + AmbientVoices(now, draws)
    ensures r.master.Some?
    ensures r.currentVolume == s.currentVolume && r.isMuted == s.isMuted
    ensures r.pendingTeardowns == s.pendingTeardowns
    ensures Valid(s) ==> Valid(r)
  {
    var ctx := GetAudioContext(s);
    var (s', hasOutput) := GetOutputNode(ctx);
    if !hasOutput || s'.isAmbientPlaying then s'
    else s'.(isAmbientPlaying := true, ambientNodes := s'.ambientNodes + AmbientVoices(now, draws))
  }

  /** Starting twice is starting once. */
  lemma StartAmbientIdempotent(s: AudioState, now: real, later: real,
                               draws: nat -> VoiceDraw, more: nat -> VoiceDraw)
    ensures StartAmbient(StartAmbient(s, now, draws), later, more) == StartAmbient(s, now, draws)
  {
  }

  /** The scheduled changes are in time order. */
  predicate Sorted(events: seq<GainEvent>)
  {
    forall i, j :: 0 <= i < j < |events| ==> events[i].time <= events[j].time
  }

  /** `cancelScheduledValues(time)`: drops the changes scheduled at or after
      `time`, keeping the others in their order; on a time-ordered schedule
      what stays is the part before `time`. */
  function CancelFrom(events: seq<GainEvent>, time: real): (r: seq<GainEvent>)
    ensures forall e :: e in r <==> e in events && e.time < time
    ensures |r| <= |events|
    ensures Sorted(events) ==> r == events[..|r|]
  {
    if |events| == 0 then []
    else (if events[0].time < time then [events[0]] else []) + CancelFrom(events[1..], time)
  }

  /** What `stopAmbient` schedules on one node: a gain stage ramps to 0 by
      now + 2, a tone generator stops at now + 2.1. */
  function Silence(n: Node, now: real): (r: Node)
    ensures r.Gain? <==> n.Gain?
    ensures r.Oscillator? ==> r.stopAt == Some(now + StopDelay)
    ensures r.Gain? ==> |r.events| > 0 && r.events[|r.events| - 1] == LinearRamp(0.0, now + FadeOut)
    ensures r.Gain? ==> forall e :: e in r.events ==> e.time <= now + FadeOut
  {
    match n
    case Gain(v, events) => Gain(v, CancelFrom(events, now) + [LinearRamp(0.0, now + FadeOut)])
    case Oscillator(f, detune, _) => Oscillator(f, detune, Some(now + StopDelay))
  }

  /** Every change scheduled on the node happens before `time`: a tone
      generator is scheduled to stop before it, a gain stage has no change at
      or after it. */
  predicate EndsBefore(n: Node, time: real)
  {
    match n
    case Oscillator(_, _, stopAt) => stopAt.Some? && stopAt.value < time
    case Gain(_, events) => forall e :: e in events ==> e.time < time
  }

  /** What `stopAmbient` schedules on each node of a voice. */
  function SilenceVoice(v: Voice, now: real): Voice
  {
    Voice(Silence(v.tone, now), Silence(v.gain, now), Silence(v.lfo, now), Silence(v.lfoDepth, now))
  }

  /** Every node of the voice is done changing before `time`. */
  predicate VoiceEndsBefore(v: Voice, time: real)
  {
    EndsBefore(v.tone, time) && EndsBefore(v.gain, time) && EndsBefore(v.lfo, time) && EndsBefore(v.lfoDepth, time)
  }

  /** `stopAmbient`: a no-op when the drone is not flagged as playing;
      otherwise it schedules every node's fade or stop and sets the teardown
      timer, leaving the flag and the node list as they are until that timer
      fires. Everything it schedules ends before the teardown. */
  function StopAmbient(s: AudioState, now: real): (r: AudioState)
    ensures !s.isAmbientPlaying ==> r == s
    ensures s.isAmbientPlaying ==>
              && r.isAmbientPlaying
              && r.pendingTeardowns == s.pendingTeardowns + 1
              && |r.ambientNodes| == |s.ambientNodes|
              && forall k :: 0 <= k < |r.ambientNodes| ==> r.ambientNodes[k] == SilenceVoice(s.ambientNodes[k], now)
    ensures s.isAmbientPlaying ==>
              forall k :: 0 <= k < |r.ambientNodes| ==> VoiceEndsBefore(r.ambientNodes[k], now + TeardownDelay)
    ensures r.currentVolume == s.currentVolume && r.isMuted == s.isMuted
    ensures Valid(s) ==> Valid(r)
  {
    if !s.isAmbientPlaying then s
    else
      var s' := GetAudioContext(s);
      s'.(ambientNodes := seq(|s'.ambientNodes|, k requires 0 <= k < |s'.ambientNodes| => SilenceVoice(s'.ambientNodes[k], now)),
          pendingTeardowns := s'.pendingTeardowns + 1)
  }

  /** The teardown timer firing: clears the node list and the flag. With no
      timer pending there is nothing to fire. */
  function FireTimer(s: AudioState): (r: AudioState)
    ensures s.pendingTeardowns == 0 ==> r == s
    ensures s.pendingTeardowns > 0 ==>
              !r.isAmbientPlaying && r.ambientNodes == [] && r.pendingTeardowns == s.pendingTeardowns - 1
    ensures r.master == s.master && r.currentVolume == s.currentVolume && r.isMuted == s.isMuted
    ensures Valid(s) ==> Valid(r)
  {
    if s.pendingTeardowns == 0 then s
    else s.(isAmbientPlaying := false, ambientNodes := [], pendingTeardowns := s.pendingTeardowns - 1)
  }

  /** Stopping when not playing is a no-op; a stopped drone, once its timer
      fires, is silent and empty; and throughout the fade-out window, before
      the timer fires, `startAmbient` changes nothing. */
  lemma StopAmbientThenTeardown(s: AudioState, now: real, later: real, draws: nat -> VoiceDraw)
    requires Valid(s) && s.isAmbientPlaying
    ensures StartAmbient(StopAmbient(s, now), later, draws) == StopAmbient(s, now)
    ensures !FireTimer(StopAmbient(s, now)).isAmbientPlaying
    ensures FireTimer(StopAmbient(s, now)).ambientNodes == []
    ensures StopAmbient(FireTimer(StopAmbient(s, now)), later) == FireTimer(StopAmbient(s, now))
  {
  }

  /** A second `stopAmbient` inside the fade-out window sets a second
      teardown timer. If the first timer fires and `startAmbient` runs before
      the second fires, the second one wipes the new voices from the state
      while the drone plays them with no stop scheduled; from then on
      `stopAmbient` is a no-op, so nothing can stop them. */
  lemma StaleTeardownOrphansVoices(s: AudioState, t1: real, t2: real, t3: real, t4: real,
                                   draws: nat -> VoiceDraw)
    requires Valid(s) && s.isAmbientPlaying && s.pendingTeardowns == 0
    ensures var restarted := StartAmbient(FireTimer(StopAmbient(StopAmbient(s, t1), t2)), t3, draws);
            && restarted.isAmbientPlaying
            && restarted.ambientNodes == AmbientVoices(t3, draws)
            && restarted.pendingTeardowns == 1
            && var orphaned := FireTimer(restarted);
               && !orphaned.isAmbientPlaying
               && orphaned.ambientNodes == []
               && StopAmbient(orphaned, t4) == orphaned
  {
  }

  /** The transient effects. */
  datatype OneShot = Unwrap | Celebration | Launch | Explosion

  /** A transient that was connected to the master gain: its kind, and the
      times its sources start and stop by themselves. */
  datatype Shot = Shot(kind: OneShot, start: real, stop: real)

  /** How long each transient sounds: the unwrap noise buffer lasts 0.5 s
      (its pop tone stops at 0.4 s), the crowd swell buffer 4 s, the launch
      tone 0.4 s and the explosion buffer 1 s. */
  function ShotLength(kind: OneShot): (d: real)
    ensures 0.0 < d <= 4.0
  {
    match kind
    case Unwrap => 0.5
    case Celebration => 4.0
    case Launch => 0.4
    case Explosion => 1.0
  }

  /** `playUnwrapSound`, `playCelebrationSequence`, `playFireworkLaunch` and
      `playExplosion`: ensure the context, return early without a context or
      an output, otherwise connect one self-stopping transient to the master
      gain. No node is kept, so the only state they touch is the lazy context
      creation; since that creation always succeeds here, the early return is
      never taken. */
  function PlayOneShot(s: AudioState, kind: OneShot, now: real): (r: (AudioState, Option<Shot>))
    ensures r.0 == GetAudioContext(s)
    ensures r.0.currentVolume == s.currentVolume && r.0.isMuted == s.isMuted
    ensures r.0.isAmbientPlaying == s.isAmbientPlaying && r.0.ambientNodes == s.ambientNodes
    ensures r.0.pendingTeardowns == s.pendingTeardowns
    ensures r.1.Some? && r.1.value.kind == kind
    ensures r.1.value.start == now < r.1.value.stop
    ensures Valid(s) ==> Valid(r.0)
  {
    var ctx := GetAudioContext(s);
    var (s', hasOutput) := GetOutputNode(ctx);
    if s'.master.None? || !hasOutput then (s', None)
    else (s', Some(Shot(kind, now, now + ShotLength(kind))))
  }
}
