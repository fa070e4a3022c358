/** The frame loop's calls into the audio service: each launch or explosion
    of a frame plays its one-shot through the shared master gain
    (components/CelebrationOverlay.tsx, the calls to `playFireworkLaunch` and
    `playExplosion`). */
module Effects {
  import Audio

  /** Plays a frame's sounds in order at audio time `now`. Every sound
      connects its own transient to the master gain, so two explosions in a
      row give two independent transients; none of them touches the volume,
      the mute flag or the drone. */
  function PlaySounds(s: Audio.AudioState, sounds: seq<Audio.OneShot>, now: real)
    : (r: (Audio.AudioState, seq<Audio.Shot>))
    ensures |r.1| == |sounds|
    ensures forall k :: 0 <= k < |sounds| ==> r.1[k].kind == sounds[k] && r.1[k].start == now
    ensures r.0.currentVolume == s.currentVolume && r.0.isMuted == s.isMuted
    ensures r.0.isAmbientPlaying == s.isAmbientPlaying && r.0.ambientNodes == s.ambientNodes
    ensures r.0.pendingTeardowns == s.pendingTeardowns
    ensures |sounds| > 0 ==> r.0.master.Some?
    ensures s.master.Some? ==> r.0 == s
    ensures Audio.Valid(s) ==> Audio.Valid(r.0)
    decreases |sounds|
  {
    if |sounds| == 0 then (s, [])
    else
      var (s', shot) := Audio.PlayOneShot(s, sounds[0], now);
      var (s'', rest) := PlaySounds(s', sounds[1..], now);
      (s'', [shot.value] + rest)
  }
}
