# Celebration effects engine — a Dafny model

This project models the two pieces of logic in the celebration effects engine
that have checkable behaviour:

- **The frame simulation of the celebration overlay**
  (`components/CelebrationOverlay.tsx`). It covers three kinds of entity,
  each with its own update rule:
  - confetti and spark particles (`Particle`);
  - firework shells (`Rocket`), which detonate at their apex;
  - bouncing photo medallions (`FloatingHead`).

  It also covers activation (resize, head pool, confetti burst) and one
  iteration of the frame loop:
  - update the heads;
  - launch at most one rocket;
  - the backward rocket pass, which splices out exploded rockets and appends
    their sparks;
  - the backward particle pass, which splices out faded particles.
- **The audio service's state machine** (`services/audioService.ts`), with the
  signal processing stripped away. It covers:
  - the lazily created context and master gain;
  - volume and mute;
  - the ambient drone's start and stop;
  - the delayed teardown timer;
  - the guard shape of the four one-shot effects.

Coordinates and velocities are `real`. Every `Math.random()` call is a
parameter of type `Draws.Draw`, a real in [0, 1), so a run is deterministic for
a given set of draws. The trigonometry of a spark's direction is a parameter
too: a unit vector.

Modules:

| file | module | what it holds |
|---|---|---|
| draws.dfy | `Draws` | random draws, unit directions, `hsl` colours |
| particles.dfy | `Particles` | particle construction, update, closed form, lifetimes |
| rockets.dfy | `Rockets` | rocket construction, update, apex timing, no-dud lemma |
| heads.dfy | `Heads` | medallion construction, bouncing update, the pool of 15 |
| frame.dfy | `Frame` | activation, spawn, rocket pass, particle pass, one frame |
| audio.dfy | `Audio` | audio service state, transitions, teardown timer, one-shots |
| effects.dfy | `Effects` | a frame's launch and explosion sounds played through the audio service |

The two backward splice loops are modelled as loops on sequences, as the code
runs them: `Frame.RocketPass` and `Frame.ParticlePass`. Each is proved equal
to a front-to-back reference definition: `Frame.Survivors`, `Frame.PassSparks`
and `Frame.Alive`. Lemmas then characterise those definitions: membership,
counts, and where the sparks sit.

The master gain is modelled by its last scheduled target,
`AudioState.master`. The 2200 ms `setTimeout` of `stopAmbient` becomes a count
of pending teardowns. A separate `Audio.FireTimer` step consumes one.

## Notes on the code's behaviour

- The explosion loop `for (j = 0; j < 50 + intensity*20; j++)` runs
  ⌈50 + 20·intensity⌉ times. That is the ceiling, not the floor: a bound of
  60.5 gives 61 sparks (`Frame.SparkCountExamples`). The model follows the code.
- A particle whose opacity drops to zero or below is still drawn once, right
  after its update, before it is spliced out. `Frame.ParticlePass` returns the
  draw list to keep this.
- A rocket launched from the bottom edge never takes the "fell below the
  screen" branch (`Rockets.NeverDud`, `Frame.FrameKeepsRocketsInFlight`). Only a
  resize that lowers the height under a rocket in flight can make that branch
  fire.
- `stopAmbient` is a no-op only when the drone is not flagged as playing. A
  second call inside the 2.2 s fade-out window reschedules the fades and sets
  a second timer. `Audio.StaleTeardownOrphansVoices` shows the consequence. If
  the drone is restarted between the two timers, the second timer clears the
  new voices from the state while they keep sounding. From then on
  `stopAmbient` cannot stop them.

## Model

| member | source | states |
|---|---|---|
| `Particles.NewSpark` | components/CelebrationOverlay.tsx:20-39 | a spark starts at the given point in the given colour, fully opaque, with radius in [1, 4), decay in [0.015, 0.025) and squared speed in [4, 36) |
| `Particles.NewConfetti` | components/CelebrationOverlay.tsx:20-39 | a confetti piece starts at the given point, fully opaque, with vx in [-4, 4), an upward vy in (-15, -5], radius in [4, 12) and decay 0.005 |
| `Particles.Update` | components/CelebrationOverlay.tsx:41-46 | an update strictly lowers the opacity when the decay is positive and keeps colour, size, decay and vx |
| `Particles.UpdateNClosedForm` | components/CelebrationOverlay.tsx:41-46 | after n updates x has moved by n·vx, vy has grown by n·gravity, y follows uniformly accelerated motion and alpha has dropped by n·decay |
| `Particles.ConfettiLifetime` | components/CelebrationOverlay.tsx:31-46 | a confetti piece is still visible after 199 updates and faded after 200 |
| `Particles.SparkLifetime` | components/CelebrationOverlay.tsx:24-46 | a spark is still visible after 40 updates and faded after 67 |
| `Rockets.NewRocket` | components/CelebrationOverlay.tsx:64-70 | a rocket starts on the bottom edge, inside the width, with vy in (-15, -10], unexploded, in a random hue at lightness 60 |
| `Rockets.Update` | components/CelebrationOverlay.tsx:72-75 | an update moves the rocket by exactly its old vy, then adds exactly 0.15 to vy; a rising rocket goes up; x, colour and flag are kept |
| `Rockets.UpdateNSpeed` | components/CelebrationOverlay.tsx:72-75 | after n updates vy has grown by exactly 0.15·n, y has moved by n·vy + 0.15·n(n−1)/2, and x, colour and flag are unchanged |
| `Rockets.ExplodesWithin94` | components/CelebrationOverlay.tsx:64-75 | a new rocket fails the apex test `vy >= -1` for its first 59 updates and passes it from the 94th on |
| `Rockets.NeverDud` | components/CelebrationOverlay.tsx:251-268 | a rocket that starts on or above the bottom edge is strictly above it at every check before its apex |
| `Heads.NewHead` | components/CelebrationOverlay.tsx:100-114 | a medallion has size in [50, 120) and is placed inside the surface in each direction the surface can hold it |
| `Heads.Update` | components/CelebrationOverlay.tsx:116-137 | after an update the medallion is inside the surface whenever the surface can hold it; a velocity component flips exactly when a wall is touched, and the position is clamped onto the wall it crossed (left/top tested first); size is kept and rotation grows by rotationSpeed |
| `Heads.StaysInBox` | components/CelebrationOverlay.tsx:116-137 | a medallion on a surface that holds it stays inside after any number of updates and keeps its size |
| `Heads.InitHeads` | components/CelebrationOverlay.tsx:197-203 | the pool always has exactly 15 medallions, all inside a surface of at least 120 by 120 |
| `Heads.UpdateAll` | components/CelebrationOverlay.tsx:236-240 | the head pass keeps the pool size and leaves every medallion the surface can hold inside it |
| `Frame.Resize` | components/CelebrationOverlay.tsx:205-212 | a resize takes the new size and replaces the pool with 15 fresh medallions inside the new bounds, keeping rockets and particles |
| `Frame.ConfettiBurst` | components/CelebrationOverlay.tsx:217-224 | the burst appends exactly 150 fully opaque confetti pieces at (width/2, height/2 + 100) after the existing particles |
| `Frame.Activate` | components/CelebrationOverlay.tsx:186-225 | activation yields no rockets, 15 medallions and exactly 150 particles at (width/2, height/2 + 100) |
| `Frame.Launched` | components/CelebrationOverlay.tsx:242-248 | the spawn step keeps the old rockets and appends one new rocket, on the bottom edge and in flight, exactly when the draw is below 0.05·intensity |
| `Frame.SparkCount` | components/CelebrationOverlay.tsx:261-264 | an explosion makes the ceiling of 50 + 20·intensity sparks when that bound is positive, and none otherwise |
| `Frame.SparkCountIsCeiling` | components/CelebrationOverlay.tsx:261-264 | the spark loop's test `j < 50 + intensity*20` holds exactly for the j below SparkCount |
| `Frame.SparkCountExamples` | components/CelebrationOverlay.tsx:261-264 | intensity 0.5 gives 60 sparks, 3.0 gives 110 and 0.525 gives 61 |
| `Frame.Burst` | components/CelebrationOverlay.tsx:261-264 | one explosion makes SparkCount sparks, all at the rocket's post-update position, in its colour, fully opaque |
| `Frame.Survivors` | components/CelebrationOverlay.tsx:251-268 | the rockets kept by the pass are updated rockets that neither exploded nor fell below the bottom edge |
| `Frame.SurvivorsAccounting` | components/CelebrationOverlay.tsx:251-268 | kept + exploded + fallen rockets add up to the rockets the pass started with: a rocket is removed iff it exploded or fell |
| `Frame.SurvivorsMembers` | components/CelebrationOverlay.tsx:251-268 | a rocket is in the kept list exactly when it is the update of a listed rocket and stays |
| `Frame.PassSparksCount` | components/CelebrationOverlay.tsx:251-268 | the pass appends exactly SparkCount sparks per exploded rocket |
| `Frame.PassSparksOrigin` | components/CelebrationOverlay.tsx:256-264 | every appended spark is fully opaque and sits at the post-update position of an exploded rocket, in its colour |
| `Frame.NoDudsInFlight` | components/CelebrationOverlay.tsx:251-268 | while every rocket is in flight the pass removes no fallen rocket and every kept rocket stays in flight |
| `Frame.FrameKeepsRocketsInFlight` | components/CelebrationOverlay.tsx:242-268 | spawning and the rocket pass keep every rocket in flight, so the fallen-rocket branch never fires at a fixed height |
| `Frame.AppendBurst` | components/CelebrationOverlay.tsx:260-263 | the spark loop appends exactly the explosion's reference burst: ⌈50 + 20·intensity⌉ sparks at the rocket's position and colour |
| `Frame.RocketPass` | components/CelebrationOverlay.tsx:251-268 | the backward splice loop yields exactly the front-to-back kept list, appends exactly the reference sparks and counts the explosions |
| `Frame.Alive` | components/CelebrationOverlay.tsx:271-278 | the particles kept by the pass are updated particles with positive opacity |
| `Frame.AliveAppend` | components/CelebrationOverlay.tsx:261-278 | the particle pass over old particles plus freshly appended sparks is the pass over each part, in order |
| `Frame.AliveMembers` | components/CelebrationOverlay.tsx:271-278 | a particle is kept exactly when it is the update of a listed particle and its opacity is positive |
| `Frame.ParticlePass` | components/CelebrationOverlay.tsx:271-278 | the backward splice loop yields exactly the in-order filter of updated particles with positive opacity and draws every updated particle once, faded ones included |
| `Frame.Step` | components/CelebrationOverlay.tsx:229-281 | one frame keeps the surface, updates every head, spawns at most one rocket, keeps the pass's survivors, runs the particle pass over old particles plus new sparks (each drawn particle is the update of the matching one, walked from the back), and plays a launch sound only on a spawn plus one explosion sound per explosion |
| `Effects.PlaySounds` | components/CelebrationOverlay.tsx:243-264 | each frame sound connects its own transient to the master gain and leaves volume, mute and drone untouched |
| `Audio.InitialValid` | services/audioService.ts:7-12 | the page starts with no context and a state that meets the service invariant |
| `Audio.GetAudioContext` | services/audioService.ts:15-23 | the first call creates the master gain at the muted-or-volume level; later calls change nothing |
| `Audio.GetOutputNode` | services/audioService.ts:26-29 | asking for the output creates the context if needed and always finds the master gain |
| `Audio.SetMasterVolume` | services/audioService.ts:31-36 | the volume is always recorded, the gain target changes only when unmuted, and the invariant "target = muted ? 0 : volume" is kept |
| `Audio.ToggleMute` | services/audioService.ts:38-44 | the flag is recorded and an existing master gain is retargeted to 0 or the recorded volume, keeping the invariant |
| `Audio.MuteUnmuteRestoresVolume` | services/audioService.ts:31-44 | mute then unmute retargets to the last volume set, even one set while muted |
| `Audio.NewVoice` | services/audioService.ts:66-93 | voice i plays frequency i detuned within [-2, 2), fades in from 0 to 0.03 ending at now + 3 + 0.5·i, has an LFO at 0.1 to 0.3 Hz with depth 0.01 and no scheduled stop |
| `Audio.AmbientVoices` | services/audioService.ts:64-94 | the drone has one voice per frequency; voice i's gain ramps from 0 to 0.03 ending at now + 3 + 0.5·i, its detune is in [-2, 2) and its LFO rate in [0.1, 0.3) |
| `Audio.StartAmbient` | services/audioService.ts:54-95 | starting while playing only ensures the context; otherwise it sets the flag and appends the drone's voices, keeping the invariant |
| `Audio.StartAmbientIdempotent` | services/audioService.ts:54-58 | starting twice is the same as starting once |
| `Audio.CancelFrom` | services/audioService.ts:103-108 | cancelling keeps exactly the scheduled gain changes before the cancel time, in order; on a time-ordered schedule the result is its prefix before that time |
| `Audio.Silence` | services/audioService.ts:103-114 | a gain stage ends with a ramp to 0 at now + 2 and has nothing later; a tone generator stops at now + 2.1 |
| `Audio.StopAmbient` | services/audioService.ts:97-121 | stopping when not playing is a no-op; otherwise every node is faded or stopped before the 2.2 s teardown, a timer is added and the flag stays set |
| `Audio.FireTimer` | services/audioService.ts:117-120 | a firing teardown clears the voices and the flag and consumes one pending timer |
| `Audio.StopAmbientThenTeardown` | services/audioService.ts:97-121 | startAmbient is a no-op throughout the fade-out window; once the timer fires the drone is off and empty |
| `Audio.StaleTeardownOrphansVoices` | services/audioService.ts:97-121 | with two stops in the window and a restart between the timers, the second timer drops the new, unstopped voices and later stops are no-ops |
| `Audio.PlayOneShot` | services/audioService.ts:123-243 | a one-shot only ensures the context, never takes its early return here, and connects one self-stopping transient without touching volume, mute or drone |

## Left out

- Rendering: every `draw` method, the trail overlay, the canvas state and the
  colour strings. A colour is kept as `Hsl(hue, lightness)` and only copied from
  rocket to spark.
- React and browser plumbing: hooks, `requestAnimationFrame`,
  `cancelAnimationFrame` and the resize listener. `Frame.Activate` is the
  set-up. The first `Frame.Step` the code runs right after it is a separate
  call. Intensity is a parameter of each step, as the code reads it fresh every
  frame.
- The single random stream. Draws are structured parameters: spark j of the
  rocket at index i uses `sparks(i, j)`. The random samples that the
  one-shots' noise buffers take from the same stream are not modelled.
- Trigonometry: a spark's direction (cos a, sin a) is a unit-vector parameter.
- Floating point: all arithmetic is exact over the reals. The exact lifetimes
  (200 updates for confetti) hold for the reals. Rounding of doubles could move
  such a boundary by one update.
- Web Audio signal processing: filters, the shape of ramps over time, the
  `setTargetAtTime` time constant, oscillator waveforms, the white and pink
  noise buffer fills, and the audio clock itself (`now` is a parameter).
- `resumeAudio`: an asynchronous browser-policy call with no state beyond the
  context.
- Failure of the `AudioContext` constructor: the code does not catch it, so
  the model treats creation as always succeeding. The early-return guards of
  the one-shots are modelled but can then never fire.
- The exceptions `stopAmbient` swallows from `cancelScheduledValues` and
  `stop`. Both calls are modelled as succeeding, with a later stop time
  replacing an earlier one.
- Timer timing: `setTimeout` runs on the page clock, not the audio clock.
  `Audio.FireTimer` fires the oldest pending teardown whenever it is called.
- The ambient node list is kept as one `Voice` record per frequency, holding
  the four nodes the code pushes for it (tone, gain, LFO, LFO depth). The node
  count is four times the number of voices (`Audio.NodeCount`).
- The `ticker` frame counter is modelled but is not used by the code.
- The rest of the repository: the form and the app flow, the music player, the
  audio controls and the gift box. They are UI or media-element passthroughs.
