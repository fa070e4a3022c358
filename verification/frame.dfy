/** One iteration of the celebration overlay's frame loop and its set-up:
    the head pass, the rocket spawn, the backward rocket pass with its
    explosions, and the backward particle pass
    (components/CelebrationOverlay.tsx, the activation effect and `loop`). */
module Frame {
  import opened Draws
  import P = Particles
  import R = Rockets
  import H = Heads
  import Audio

  /** The launch chance per frame for each unit of intensity. */
  const SpawnRate: real := 0.05

  /** The number of confetti pieces thrown on activation. */
  const ConfettiCount: nat := 150

  /** The populations of an active overlay on a width x height surface.
      `ticker` counts frames. */
  datatype Scene = Scene(
    width: real, height: real,
    heads: seq<H.Head>,
    rockets: seq<R.Rocket>,
    particles: seq<P.Particle>,
    ticker: nat)

  /** The random draws one frame consumes: the spawn test, the new rocket's
      draws, the launch-sound coin, and spark j of the rocket at index i of
      the rocket list as the rocket pass starts. */
  datatype FrameDraws = FrameDraws(
    spawn: Draw,
    rocket: R.RocketDraw,
    launchSound: Draw,
    sparks: (nat, nat) -> P.SparkDraw)

  // ---------------------------------------------------------------------
  // Set-up: resize, the head pool and the confetti burst
  // ---------------------------------------------------------------------

  /** `resize`: take the new surface size and replace the head pool. */
  function Resize(s: Scene, width: real, height: real, draws: nat -> H.HeadDraw): (r: Scene)
    ensures r.width == width && r.height == height
    ensures |r.heads| == H.PoolSize
    ensures width >= H.MaxSize && height >= H.MaxSize ==>
              forall k :: 0 <= k < |r.heads| ==> H.InBox(r.heads[k], width, height)
    ensures r.rockets == s.rockets && r.particles == s.particles && r.ticker == s.ticker
  {
    s.(width := width, height := height, heads := H.InitHeads(width, height, draws))
  }

  /** `createConfettiBurst`: append 150 confetti pieces, all thrown from
      100 pixels below the centre of the surface. */
  function ConfettiBurst(particles: seq<P.Particle>, width: real, height: real,
                         draws: nat -> P.ConfettiDraw): (r: seq<P.Particle>)
    ensures |r| == |particles| + ConfettiCount
    ensures r[..|particles|] == particles
    ensures forall k :: |particles| <= k < |r| ==>
              r[k].x == width / 2.0 && r[k].y == height / 2.0 + 100.0 &&
              r[k].alpha == 1.0 && r[k].decay == P.ConfettiDecay
  {
    var burst := seq(ConfettiCount, k requires 0 <= k =>
                     P.NewConfetti(width / 2.0, height / 2.0 + 100.0, draws(k)));
    assert forall k :: 0 <= k < |burst| ==> burst[k] == P.NewConfetti(width / 2.0, height / 2.0 + 100.0, draws(k));
    particles + burst
  }

  /** Activation: empty populations, a resize (which builds the head pool),
      then the confetti burst. The first frame runs right after. */
  function Activate(width: real, height: real, headDraws: nat -> H.HeadDraw,
                    confettiDraws: nat -> P.ConfettiDraw): (s: Scene)
    ensures s.width == width && s.height == height
    ensures |s.heads| == H.PoolSize
    ensures width >= H.MaxSize && height >= H.MaxSize ==>
              forall k :: 0 <= k < |s.heads| ==> H.InBox(s.heads[k], width, height)
    ensures s.rockets == []
    ensures |s.particles| == ConfettiCount
    ensures forall k :: 0 <= k < |s.particles| ==>
              s.particles[k].x == width / 2.0 && s.particles[k].y == height / 2.0 + 100.0
    ensures s.ticker == 0
  {
    var s := Resize(Scene(width, height, [], [], [], 0), width, height, headDraws);
    s.(particles := ConfettiBurst(s.particles, width, height, confettiDraws))
  }

  // ---------------------------------------------------------------------
  // Spawning
  // ---------------------------------------------------------------------

  /** The frame launches a rocket exactly when the spawn draw is below
      0.05 times the intensity. */
  predicate Spawns(intensity: real, d: FrameDraws)
  {
    d.spawn < SpawnRate * intensity
  }

  /** The rocket list after the spawn step: the old rockets unchanged, plus
      one new rocket at the end exactly when the spawn test passes, which
      starts in flight from the bottom edge. */
  function Launched(s: Scene, intensity: real, d: FrameDraws): (rs: seq<R.Rocket>)
    ensures |rs| == |s.rockets| || |rs| == |s.rockets| + 1
    ensures rs[..|s.rockets|] == s.rockets
    ensures |rs| == |s.rockets| + 1 <==> Spawns(intensity, d)
    ensures |rs| == |s.rockets| + 1 ==>
              InFlight(rs[|s.rockets|], s.height) && rs[|s.rockets|].y == s.height
  {
    if Spawns(intensity, d) then s.rockets + [R.NewRocket(s.width, s.height, d.rocket)] else s.rockets
  }

  /** A spawn plays the launch sound when its coin is above one half. */
  predicate LaunchSound(intensity: real, d: FrameDraws)
  {
    Spawns(intensity, d) && d.launchSound > 0.5
  }

  // ---------------------------------------------------------------------
  // Explosion size
  // ---------------------------------------------------------------------

  /** The bound of the spark loop: 50 + intensity * 20. */
  function SparkBound(intensity: real): real
  {
    50.0 + intensity * 20.0
  }

  /** The number of sparks of one explosion: the ceiling of the bound when it
      is positive, and 0 otherwise. */
  function SparkCount(intensity: real): (n: nat)
    ensures SparkBound(intensity) > 0.0 ==> (n as real) - 1.0 < SparkBound(intensity) <= n as real
    ensures SparkBound(intensity) <= 0.0 ==> n == 0
  {
    var b := SparkBound(intensity);
    if b <= 0.0 then 0 else -((-b).Floor)
  }

  /** The spark loop `for (j = 0; j < 50 + intensity * 20; j++)` runs exactly
      for the j below SparkCount, which is the smallest whole number at or
      above the bound (for every intensity above -2.5). */
  lemma SparkCountIsCeiling(intensity: real, j: nat)
    ensures (j as real) < SparkBound(intensity) <==> j < SparkCount(intensity)
  {
  }

  /** Intensity 0.5 gives 60 sparks and 3.0 gives 110; a bound of 60.5
      (intensity 0.525) gives 61, not 60. */
  lemma SparkCountExamples()
    ensures SparkCount(0.5) == 60
    ensures SparkCount(3.0) == 110
    ensures SparkCount(0.525) == 61
  {
  }

  /** The sparks of one explosion: rocket `i`, already updated, bursts into
      SparkCount sparks at its position and in its colour. */
  function Burst(u: R.Rocket, i: nat, intensity: real, draws: (nat, nat) -> P.SparkDraw): (ps: seq<P.Particle>)
    ensures |ps| == SparkCount(intensity)
    ensures forall j :: 0 <= j < |ps| ==>
              ps[j].x == u.x && ps[j].y == u.y && ps[j].color == u.color && ps[j].alpha == 1.0
  {
    var ps := seq(SparkCount(intensity), j requires 0 <= j => P.NewSpark(u.x, u.y, u.color, draws(i, j)));
    assert forall j :: 0 <= j < |ps| ==> ps[j] == P.NewSpark(u.x, u.y, u.color, draws(i, j));
    ps
  }

  // ---------------------------------------------------------------------
  // The rocket pass: reference definitions
  // ---------------------------------------------------------------------

  /** An updated rocket stays in the list: it neither exploded nor fell
      below the bottom edge. */
  predicate Kept(u: R.Rocket, height: real)
  {
    !R.Explodes(u) && !(u.y > height)
  }

  /** An updated rocket that fell below the bottom edge without exploding. */
  predicate Dud(u: R.Rocket, height: real)
  {
    !R.Explodes(u) && u.y > height
  }

  /** Front to back: the updated rockets that stay, in their original order. */
  function Survivors(rockets: seq<R.Rocket>, height: real): (rs: seq<R.Rocket>)
    ensures |rs| <= |rockets|
    ensures forall k :: 0 <= k < |rs| ==> Kept(rs[k], height)
  {
    if |rockets| == 0 then []
    else
      var u := R.Update(rockets[0]);
      (if Kept(u, height) then [u] else []) + Survivors(rockets[1..], height)
  }

  /** How many rockets explode on their update. */
  function ExplodedCount(rockets: seq<R.Rocket>): nat
  {
    if |rockets| == 0 then 0
    else (if R.Explodes(R.Update(rockets[0])) then 1 else 0) + ExplodedCount(rockets[1..])
  }

  /** How many rockets fall below the bottom edge on their update. */
  function DudCount(rockets: seq<R.Rocket>, height: real): nat
  {
    if |rockets| == 0 then 0
    else (if Dud(R.Update(rockets[0]), height) then 1 else 0) + DudCount(rockets[1..], height)
  }

  /** The sparks appended by the pass over rockets `from` to the last, which
      visits the last rocket first, so its sparks come first. */
  function PassSparks(rockets: seq<R.Rocket>, from: nat, intensity: real,
                      draws: (nat, nat) -> P.SparkDraw): seq<P.Particle>
    requires from <= |rockets|
    decreases |rockets| - from
  {
    if from == |rockets| then []
    else
      var u := R.Update(rockets[from]);
      PassSparks(rockets, from + 1, intensity, draws)
        + (if R.Explodes(u) then Burst(u, from, intensity, draws) else [])
  }

  /** Every rocket is either kept, exploded or a dud: the pass removes
      exactly the rockets that exploded or fell below the bottom edge. */
  lemma {:induction false} SurvivorsAccounting(rockets: seq<R.Rocket>, height: real)
    ensures |Survivors(rockets, height)| + ExplodedCount(rockets) + DudCount(rockets, height) == |rockets|
  {
    if |rockets| > 0 {
      SurvivorsAccounting(rockets[1..], height);
    }
  }

  /** A rocket survives the pass exactly when it is the update of some rocket
      of the list and stays. */
  lemma {:induction false} SurvivorsMembers(rockets: seq<R.Rocket>, height: real, u: R.Rocket)
    ensures u in Survivors(rockets, height)
        <==> Kept(u, height) && exists k :: 0 <= k < |rockets| && u == R.Update(rockets[k])
  {
    if |rockets| > 0 {
      SurvivorsMembers(rockets[1..], height, u);
      if u in Survivors(rockets[1..], height) {
        var k :| 0 <= k < |rockets[1..]| && u == R.Update(rockets[1..][k]);
        assert u == R.Update(rockets[k + 1]);
      }
      if Kept(u, height) && (exists k :: 0 <= k < |rockets| && u == R.Update(rockets[k])) {
        var k :| 0 <= k < |rockets| && u == R.Update(rockets[k]);
        if k > 0 {
          assert u == R.Update(rockets[1..][k - 1]);
        }
      }
    }
  }

  /** Each exploding rocket contributes exactly SparkCount sparks. */
  lemma {:induction false} PassSparksCount(rockets: seq<R.Rocket>, from: nat, intensity: real,
                                           draws: (nat, nat) -> P.SparkDraw)
    requires from <= |rockets|
    ensures |PassSparks(rockets, from, intensity, draws)| == SparkCount(intensity) * ExplodedCount(rockets[from..])
    decreases |rockets| - from
  {
    if from < |rockets| {
      PassSparksCount(rockets, from + 1, intensity, draws);
      var u := R.Update(rockets[from]);
      var tail := rockets[from..];
      assert tail[0] == rockets[from] && tail[1..] == rockets[from + 1..];
      assert ExplodedCount(tail) == (if R.Explodes(u) then 1 else 0) + ExplodedCount(rockets[from + 1..]);
    }
  }

  /** Every spark of the pass sits at the post-update position of a rocket
      that exploded, in that rocket's colour, at full opacity. */
  lemma {:induction false} PassSparksOrigin(rockets: seq<R.Rocket>, from: nat, intensity: real,
                                            draws: (nat, nat) -> P.SparkDraw, q: P.Particle)
    requires from <= |rockets|
    requires q in PassSparks(rockets, from, intensity, draws)
    ensures q.alpha == 1.0
    ensures exists i :: from <= i < |rockets| && R.Explodes(R.Update(rockets[i]))
              && q.x == R.Update(rockets[i]).x && q.y == R.Update(rockets[i]).y
              && q.color == R.Update(rockets[i]).color
    decreases |rockets| - from
  {
    var u := R.Update(rockets[from]);
    if q in PassSparks(rockets, from + 1, intensity, draws) {
      PassSparksOrigin(rockets, from + 1, intensity, draws, q);
    } else {
      var burst := Burst(u, from, intensity, draws);
      assert q in burst;
      var j :| 0 <= j < |burst| && burst[j] == q;
    }
  }

  /** A rocket between launch and apex: on or above the bottom edge, still
      rising faster than the apex speed, not yet flagged. */
  predicate InFlight(r: R.Rocket, height: real)
  {
    r.y <= height && r.vy < R.ApexSpeed && !r.exploded
  }

  /** While every rocket is in flight, the pass removes no dud and every
      survivor is still in flight. */
  lemma {:induction false} NoDudsInFlight(rockets: seq<R.Rocket>, height: real)
    requires forall k :: 0 <= k < |rockets| ==> InFlight(rockets[k], height)
    ensures DudCount(rockets, height) == 0
    ensures forall k :: 0 <= k < |Survivors(rockets, height)| ==> InFlight(Survivors(rockets, height)[k], height)
  {
    if |rockets| > 0 {
      NoDudsInFlight(rockets[1..], height);
    }
  }

  /** Frames keep all rockets in flight: a launched rocket starts in flight,
      and the rocket pass preserves it, so the "fell below the bottom edge"
      branch is never taken while the surface keeps its height. */
  lemma FrameKeepsRocketsInFlight(s: Scene, intensity: real, d: FrameDraws)
    requires forall k :: 0 <= k < |s.rockets| ==> InFlight(s.rockets[k], s.height)
    ensures DudCount(Launched(s, intensity, d), s.height) == 0
    ensures var rs := Survivors(Launched(s, intensity, d), s.height);
            forall k :: 0 <= k < |rs| ==> InFlight(rs[k], s.height)
  {
    NoDudsInFlight(Launched(s, intensity, d), s.height);
  }

  // ---------------------------------------------------------------------
  // The rocket pass as the source runs it
  // ---------------------------------------------------------------------

  /** Unfolding the reference definitions at the head of a suffix. */
  lemma SuffixStep(rockets: seq<R.Rocket>, i: nat, height: real)
    requires i < |rockets|
    ensures Survivors(rockets[i..], height)
         == (if Kept(R.Update(rockets[i]), height) then [R.Update(rockets[i])] else [])
            + Survivors(rockets[i + 1..], height)
    ensures ExplodedCount(rockets[i..])
         == (if R.Explodes(R.Update(rockets[i])) then 1 else 0) + ExplodedCount(rockets[i + 1..])
    ensures DudCount(rockets[i..], height)
         == (if Dud(R.Update(rockets[i]), height) then 1 else 0) + DudCount(rockets[i + 1..], height)
  {
  }

  /** The spark loop of one explosion: one spark per pass while the counter
      is below 50 + 20 * intensity, each at the rocket's position and in its
      colour. */
  method AppendBurst(ps: seq<P.Particle>, r: R.Rocket, i: nat, intensity: real,
                     draws: (nat, nat) -> P.SparkDraw) returns (out: seq<P.Particle>)
    ensures out == ps + Burst(r, i, intensity, draws)
  {
    ghost var burst := Burst(r, i, intensity, draws);
    out := ps;
    var j := 0;
    while (j as real) < SparkBound(intensity)
      invariant 0 <= j <= SparkCount(intensity)
      invariant out == ps + burst[..j]
      decreases SparkCount(intensity) - j
    {
      SparkCountIsCeiling(intensity, j);
      assert burst[..j + 1] == burst[..j] + [P.NewSpark(r.x, r.y, r.color, draws(i, j))];
      out := out + [P.NewSpark(r.x, r.y, r.color, draws(i, j))];
      j := j + 1;
    }
    SparkCountIsCeiling(intensity, j);
    assert burst[..j] == burst;
  }

  /** The rocket pass: walk the list from the back; update each rocket; an
      exploding rocket is flagged, spliced out and appends its sparks; a
      rocket below the bottom edge is spliced out. The result is the in-order
      list of updated rockets that stay, and the particles gain the sparks. */
  method RocketPass(rockets: seq<R.Rocket>, particles: seq<P.Particle>, height: real,
                    intensity: real, draws: (nat, nat) -> P.SparkDraw)
    returns (survivors: seq<R.Rocket>, ps: seq<P.Particle>, explosions: nat)
    ensures survivors == Survivors(rockets, height)
    ensures ps == particles + PassSparks(rockets, 0, intensity, draws)
    ensures explosions == ExplodedCount(rockets)
  {
    survivors := rockets;
    ps := particles;
    explosions := 0;
    var i := |rockets| - 1;
    while i >= 0
      invariant -1 <= i < |rockets|
      invariant survivors == rockets[..i + 1] + Survivors(rockets[i + 1..], height)
      invariant ps == particles + PassSparks(rockets, i + 1, intensity, draws)
      invariant explosions == ExplodedCount(rockets[i + 1..])
    {
      SuffixStep(rockets, i, height);
      assert survivors[i] == rockets[i];
      var r := R.Update(survivors[i]);
      survivors := survivors[i := r];
      if R.Explodes(r) {
        var exploding := r;
        r := r.(exploded := true);
        survivors := survivors[..i] + survivors[i + 1..];
        explosions := explosions + 1;
        ps := AppendBurst(ps, exploding, i, intensity, draws);
      } else if r.y > height {
        survivors := survivors[..i] + survivors[i + 1..];
      }
      i := i - 1;
    }
    assert rockets[0..] == rockets;
  }

  // ---------------------------------------------------------------------
  // The particle pass
  // ---------------------------------------------------------------------

  /** Front to back: the updated particles that are still visible, in order. */
  function Alive(particles: seq<P.Particle>, gravity: real): (ps: seq<P.Particle>)
    ensures |ps| <= |particles|
    ensures forall k :: 0 <= k < |ps| ==> ps[k].alpha > 0.0
  {
    if |particles| == 0 then []
    else
      var u := P.Update(particles[0], gravity);
      (if u.alpha > 0.0 then [u] else []) + Alive(particles[1..], gravity)
  }

  /** The particle pass over a list extended at the end (sparks appended by
      the rocket pass) is the pass over the old list followed by the pass
      over the extension. */
  lemma {:induction false} AliveAppend(a: seq<P.Particle>, b: seq<P.Particle>, gravity: real)
    ensures Alive(a + b, gravity) == Alive(a, gravity) + Alive(b, gravity)
  {
    if |a| > 0 {
      assert (a + b)[1..] == a[1..] + b;
      AliveAppend(a[1..], b, gravity);
    } else {
      assert a + b == b;
    }
  }

  /** A particle survives the pass exactly when it is the update of some
      particle of the list and is still visible. */
  lemma {:induction false} AliveMembers(particles: seq<P.Particle>, gravity: real, q: P.Particle)
    ensures q in Alive(particles, gravity)
        <==> q.alpha > 0.0 && exists k :: 0 <= k < |particles| && q == P.Update(particles[k], gravity)
  {
    if |particles| > 0 {
      AliveMembers(particles[1..], gravity, q);
      if q in Alive(particles[1..], gravity) {
        var k :| 0 <= k < |particles[1..]| && q == P.Update(particles[1..][k], gravity);
        assert q == P.Update(particles[k + 1], gravity);
      }
      if q.alpha > 0.0 && (exists k :: 0 <= k < |particles| && q == P.Update(particles[k], gravity)) {
        var k :| 0 <= k < |particles| && q == P.Update(particles[k], gravity);
        if k > 0 {
          assert q == P.Update(particles[1..][k - 1], gravity);
        }
      }
    }
  }

  /** The particle pass: walk the list from the back; update and draw each
      particle, then splice it out when its opacity is no longer positive.
      It returns the surviving list and the particles in the order drawn:
      every particle is drawn once after its update, including the ones
      removed in the same step. */
  method ParticlePass(particles: seq<P.Particle>, gravity: real)
    returns (alive: seq<P.Particle>, drawn: seq<P.Particle>)
    ensures alive == Alive(particles, gravity)
    ensures |drawn| == |particles|
    ensures forall k :: 0 <= k < |drawn| ==> drawn[k] == P.Update(particles[|particles| - 1 - k], gravity)
  {
    alive := particles;
    drawn := [];
    var i := |particles| - 1;
    while i >= 0
      invariant -1 <= i < |particles|
      invariant alive == particles[..i + 1] + Alive(particles[i + 1..], gravity)
      invariant |drawn| == |particles| - 1 - i
      invariant forall k :: 0 <= k < |drawn| ==> drawn[k] == P.Update(particles[|particles| - 1 - k], gravity)
    {
      assert particles[i..][1..] == particles[i + 1..];
      assert alive[i] == particles[i];
      var p := P.Update(alive[i], gravity);
      alive := alive[i := p];
      drawn := drawn + [p];
      if p.alpha <= 0.0 {
        alive := alive[..i] + alive[i + 1..];
      }
      i := i - 1;
    }
    assert particles[0..] == particles;
  }

  // ---------------------------------------------------------------------
  // One frame
  // ---------------------------------------------------------------------

  /** What one frame produces: the next scene, the sounds it triggers in
      order, and the particles it drew in order. */
  datatype FrameOutcome = FrameOutcome(scene: Scene, sounds: seq<Audio.OneShot>, drawn: seq<P.Particle>)

  /** One iteration of `loop`: count the frame, update every head, maybe
      launch a rocket (and maybe play its launch sound), run the rocket pass
      (an explosion sound per explosion) and then the particle pass, with
      gravity 0.1, over the particles including the sparks just appended. */
  method Step(s: Scene, intensity: real, d: FrameDraws) returns (out: FrameOutcome)
    ensures out.scene.width == s.width && out.scene.height == s.height
    ensures out.scene.ticker == s.ticker + 1
    ensures out.scene.heads == H.UpdateAll(s.heads, s.width, s.height)
    ensures out.scene.rockets == Survivors(Launched(s, intensity, d), s.height)
    ensures out.scene.particles
         == Alive(s.particles + PassSparks(Launched(s, intensity, d), 0, intensity, d.sparks), P.ParticleGravity)
    ensures var withSparks := s.particles + PassSparks(Launched(s, intensity, d), 0, intensity, d.sparks);
            && |out.drawn| == |withSparks|
            && forall k :: 0 <= k < |out.drawn| ==>
                 out.drawn[k] == P.Update(withSparks[|withSparks| - 1 - k], P.ParticleGravity)
    ensures var launches := if LaunchSound(intensity, d) then 1 else 0;
            && |out.sounds| == launches + ExplodedCount(Launched(s, intensity, d))
            && (LaunchSound(intensity, d) ==> out.sounds[0] == Audio.Launch)
            && forall k :: launches <= k < |out.sounds| ==> out.sounds[k] == Audio.Explosion
  {
    var heads := H.UpdateAll(s.heads, s.width, s.height);
    var rockets := s.rockets;
    var sounds: seq<Audio.OneShot> := [];
    if Spawns(intensity, d) {
      rockets := rockets + [R.NewRocket(s.width, s.height, d.rocket)];
      if d.launchSound > 0.5 {
        sounds := sounds + [Audio.Launch];
      }
    }
    var survivors, withSparks, explosions := RocketPass(rockets, s.particles, s.height, intensity, d.sparks);
    sounds := sounds + seq(explosions, _ => Audio.Explosion);
    var alive, drawn := ParticlePass(withSparks, P.ParticleGravity);
    out := FrameOutcome(Scene(s.width, s.height, heads, survivors, alive, s.ticker + 1), sounds, drawn);
  }
}
