/** Confetti and firework-spark fragments: construction and the per-frame
    update rule (components/CelebrationOverlay.tsx, class Particle). */
module Particles {
  import opened Draws

  datatype Particle = Particle(
    x: real, y: real,
    vx: real, vy: real,
    alpha: real,
    color: Color,
    size: real,
    decay: real)

  /** The draws a spark consumes: the direction of its random angle, then speed, size and decay. */
  datatype SparkDraw = SparkDraw(direction: Direction, speed: Draw, size: Draw, decay: Draw)

  /** The draws one confetti piece consumes: its hue (drawn by the burst), then vx, vy and size. */
  datatype ConfettiDraw = ConfettiDraw(hue: Draw, vx: Draw, vy: Draw, size: Draw)

  /** The fade per update of a confetti piece. */
  const ConfettiDecay: real := 0.005

  /** The gravity the frame loop passes to every particle update. */
  const ParticleGravity: real := 0.1

  /** A firework spark: launched from (x, y) in a random direction with speed in
      [2, 6), fully opaque, fading by 0.015 to 0.025 per update. */
  function NewSpark(x: real, y: real, color: Color, d: SparkDraw): (p: Particle)
    ensures p.x == x && p.y == y && p.color == color
    ensures p.alpha == 1.0
    ensures 1.0 <= p.size < 4.0
    ensures 0.015 <= p.decay < 0.025
    ensures 4.0 <= p.vx * p.vx + p.vy * p.vy < 36.0
  {
    var speed := d.speed * 4.0 + 2.0;
    var p := Particle(x, y, d.direction.0 * speed, d.direction.1 * speed, 1.0,
                      color, d.size * 3.0 + 1.0, 0.015 + d.decay * 0.01);
    SpeedOfDirection(d.direction, speed);
    p
  }

  /** Scaling a unit vector by `speed` gives a vector of squared length speed^2. */
  lemma SpeedOfDirection(dir: Direction, speed: real)
    requires 2.0 <= speed < 6.0
    ensures 4.0 <= (dir.0 * speed) * (dir.0 * speed) + (dir.1 * speed) * (dir.1 * speed) < 36.0
  {
    calc {
      (dir.0 * speed) * (dir.0 * speed) + (dir.1 * speed) * (dir.1 * speed);
      (dir.0 * dir.0 + dir.1 * dir.1) * (speed * speed);
      speed * speed;
    }
    assert 4.0 <= speed * speed < 36.0 by {
      assert 2.0 * 2.0 <= speed * speed;
      assert speed * speed < speed * 6.0;
      assert speed * 6.0 < 36.0;
    }
  }

  /** A confetti piece: sideways speed in [-4, 4), an upward burst in (-15, -5],
      radius in [4, 12), fading by 0.005 per update. */
  function NewConfetti(x: real, y: real, d: ConfettiDraw): (p: Particle)
    ensures p.x == x && p.y == y
    ensures p.color == RandomHue(d.hue, 50)
    ensures p.alpha == 1.0
    ensures -4.0 <= p.vx < 4.0
    ensures -15.0 < p.vy <= -5.0
    ensures 4.0 <= p.size < 12.0
    ensures p.decay == ConfettiDecay
  {
    Particle(x, y, (d.vx - 0.5) * 8.0, d.vy * -10.0 - 5.0, 1.0,
             RandomHue(d.hue, 50), d.size * 8.0 + 4.0, ConfettiDecay)
  }

  /** One update: move by the velocity, then accelerate downwards and fade. */
  function Update(p: Particle, gravity: real): (r: Particle)
    ensures p.decay > 0.0 ==> r.alpha < p.alpha
    ensures r.color == p.color && r.size == p.size && r.decay == p.decay
    ensures r.vx == p.vx
  {
    p.(x := p.x + p.vx, y := p.y + p.vy, vy := p.vy + gravity, alpha := p.alpha - p.decay)
  }

  /** `n` successive updates with the same gravity. */
  function UpdateN(p: Particle, gravity: real, n: nat): Particle
  {
    if n == 0 then p else Update(UpdateN(p, gravity, n - 1), gravity)
  }

  /** Closed form of `n` updates: uniform motion sideways, uniformly accelerated
      motion vertically, and a linear fade. */
  lemma {:induction false} UpdateNClosedForm(p: Particle, gravity: real, n: nat)
    ensures UpdateN(p, gravity, n).x == p.x + (n as real) * p.vx
    ensures UpdateN(p, gravity, n).vy == p.vy + (n as real) * gravity
    ensures UpdateN(p, gravity, n).y
         == p.y + (n as real) * p.vy + gravity * ((n as real) * (n as real - 1.0) / 2.0)
    ensures UpdateN(p, gravity, n).alpha == p.alpha - (n as real) * p.decay
    ensures UpdateN(p, gravity, n).vx == p.vx
    ensures UpdateN(p, gravity, n).decay == p.decay
    ensures UpdateN(p, gravity, n).color == p.color
  {
    if n > 0 {
      UpdateNClosedForm(p, gravity, n - 1);
      var m := (n - 1) as real;
      var q := UpdateN(p, gravity, n - 1);
      assert q.y + q.vy
          == p.y + (m + 1.0) * p.vy + gravity * ((m + 1.0) * m / 2.0) by {
        assert m * (m - 1.0) / 2.0 + m == (m + 1.0) * m / 2.0;
      }
    }
  }

  /** A confetti piece stays visible for exactly 200 updates: its opacity is
      positive after 199 and non-positive after 200. */
  lemma ConfettiLifetime(x: real, y: real, d: ConfettiDraw, gravity: real)
    ensures UpdateN(NewConfetti(x, y, d), gravity, 199).alpha > 0.0
    ensures UpdateN(NewConfetti(x, y, d), gravity, 200).alpha <= 0.0
  {
    var p := NewConfetti(x, y, d);
    UpdateNClosedForm(p, gravity, 199);
    UpdateNClosedForm(p, gravity, 200);
  }

  /** A spark stays visible for more than 40 updates and at most 67. */
  lemma SparkLifetime(x: real, y: real, c: Color, d: SparkDraw, gravity: real)
    ensures UpdateN(NewSpark(x, y, c, d), gravity, 40).alpha > 0.0
    ensures UpdateN(NewSpark(x, y, c, d), gravity, 67).alpha <= 0.0
  {
    var p := NewSpark(x, y, c, d);
    UpdateNClosedForm(p, gravity, 40);
    UpdateNClosedForm(p, gravity, 67);
  }
}
