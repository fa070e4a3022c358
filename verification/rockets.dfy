/** Firework shells: launch, ascent under constant gravity and the apex test
    (components/CelebrationOverlay.tsx, class Rocket and the explosion test of
    the frame loop). */
module Rockets {
  import opened Draws

  datatype Rocket = Rocket(x: real, y: real, vy: real, color: Color, exploded: bool)

  /** The draws a launch consumes, in order: horizontal position, launch speed, hue. */
  datatype RocketDraw = RocketDraw(x: Draw, speed: Draw, hue: Draw)

  /** The speed a rocket gains each update. */
  const RocketGravity: real := 0.15

  /** A rocket detonates once its vertical speed reaches this value. */
  const ApexSpeed: real := -1.0

  /** A new rocket starts on the bottom edge at a random horizontal position,
      rising at a speed in (10, 15], with a bright random hue. */
  function NewRocket(width: real, height: real, d: RocketDraw): (r: Rocket)
    ensures r.y == height
    ensures -15.0 < r.vy <= -10.0
    ensures width >= 0.0 ==> 0.0 <= r.x <= width
    ensures r.color == RandomHue(d.hue, 60)
    ensures !r.exploded
  {
    Rocket(Scale(d.x, width), height, d.speed * -5.0 - 10.0, RandomHue(d.hue, 60), false)
  }

  /** One update: rise by the current speed, then slow down by the gravity. */
  function Update(r: Rocket): (u: Rocket)
    ensures u.y == r.y + r.vy
    ensures u.vy == r.vy + RocketGravity
    ensures r.vy < 0.0 ==> u.y < r.y
    ensures u.x == r.x && u.color == r.color && u.exploded == r.exploded
  {
    r.(y := r.y + r.vy, vy := r.vy + RocketGravity)
  }

  /** The apex test of the frame loop. */
  predicate Explodes(r: Rocket)
  {
    r.vy >= ApexSpeed && !r.exploded
  }

  /** `n` successive updates. */
  function UpdateN(r: Rocket, n: nat): Rocket
  {
    if n == 0 then r else Update(UpdateN(r, n - 1))
  }

  /** Each update adds exactly the gravity to the vertical speed, the height
      follows uniformly accelerated motion, and nothing else ever changes. */
  lemma {:induction false} UpdateNSpeed(r: Rocket, n: nat)
    ensures UpdateN(r, n).vy == r.vy + (n as real) * RocketGravity
    ensures UpdateN(r, n).y
         == r.y + (n as real) * r.vy + RocketGravity * ((n as real) * (n as real - 1.0) / 2.0)
    ensures UpdateN(r, n).x == r.x
    ensures UpdateN(r, n).color == r.color
    ensures UpdateN(r, n).exploded == r.exploded
  {
    if n > 0 {
      UpdateNSpeed(r, n - 1);
      var m := (n - 1) as real;
      var q := UpdateN(r, n - 1);
      assert q.y + q.vy
          == r.y + (m + 1.0) * r.vy + RocketGravity * ((m + 1.0) * m / 2.0) by {
        assert m * (m - 1.0) / 2.0 + m == (m + 1.0) * m / 2.0;
      }
    }
  }

  /** A freshly launched rocket does not pass the apex test during its first
      59 updates and passes it after 94: it detonates between the 60th and the
      94th frame after launch. */
  lemma ExplodesWithin94(width: real, height: real, d: RocketDraw, n: nat)
    ensures n < 60 ==> !Explodes(UpdateN(NewRocket(width, height, d), n))
    ensures n >= 94 ==> Explodes(UpdateN(NewRocket(width, height, d), n))
  {
    UpdateNSpeed(NewRocket(width, height, d), n);
  }

  /** A rocket that starts on or above the bottom edge is strictly above it
      after every update that leaves it short of the apex, so the "fell below
      the screen" branch of the frame loop is never taken for it. */
  lemma {:induction false} NeverDud(r: Rocket, height: real, n: nat)
    requires r.y <= height
    requires n >= 1
    requires UpdateN(r, n).vy < ApexSpeed
    ensures UpdateN(r, n).y < height
  {
    var prev := UpdateN(r, n - 1);
    assert prev.vy < 0.0;
    if n > 1 {
      NeverDud(r, height, n - 1);
    }
  }
}
