/** The bouncing photo medallions ("floating heads"): construction, the
    wall-bouncing update and the fixed-size pool
    (components/CelebrationOverlay.tsx, class FloatingHead and initHeads). */
module Heads {
  import opened Draws

  datatype Head = Head(x: real, y: real, vx: real, vy: real, size: real, rotation: real, rotationSpeed: real)

  /** The draws a medallion consumes, in order: size, x, y, vx, vy, rotation, rotation speed. */
  datatype HeadDraw = HeadDraw(size: Draw, x: Draw, y: Draw, vx: Draw, vy: Draw, rotation: Draw, spin: Draw)

  /** The pool size. */
  const PoolSize: nat := 15

  /** `Math.PI * 2` as a double. */
  const TwoPi: real := 6.283185307179586

  /** The largest medallion size is strictly below this. */
  const MaxSize: real := 120.0

  /** The medallion lies wholly inside a width x height surface. */
  predicate InBox(h: Head, width: real, height: real)
  {
    0.0 <= h.x <= width - h.size && 0.0 <= h.y <= height - h.size
  }

  /** A new medallion of size in [50, 120), placed inside the surface whenever
      the surface is at least as large as the medallion in that direction. */
  function NewHead(width: real, height: real, d: HeadDraw): (h: Head)
    ensures 50.0 <= h.size < MaxSize
    ensures width >= h.size ==> 0.0 <= h.x <= width - h.size
    ensures height >= h.size ==> 0.0 <= h.y <= height - h.size
    ensures -1.5 <= h.vx < 1.5 && -1.5 <= h.vy < 1.5
    ensures 0.0 <= h.rotation < TwoPi
    ensures -0.01 <= h.rotationSpeed < 0.01
  {
    var size := d.size * 70.0 + 50.0;
    Head(Scale(d.x, width - size), Scale(d.y, height - size),
         (d.vx - 0.5) * 3.0, (d.vy - 0.5) * 3.0,
         size, d.rotation * TwoPi, (d.spin - 0.5) * 0.02)
  }

  /** The moved medallion touches or crosses the left or right wall. */
  predicate HitsSide(h: Head, width: real)
  {
    h.x + h.vx <= 0.0 || h.x + h.vx + h.size >= width
  }

  /** The moved medallion touches or crosses the top or bottom wall. */
  predicate HitsEnd(h: Head, height: real)
  {
    h.y + h.vy <= 0.0 || h.y + h.vy + h.size >= height
  }

  /** One update: move, spin, and bounce off the walls. A medallion that
      touches a wall is placed against that wall (the left and top walls are
      tested first) and its velocity across that wall is
      reversed; otherwise it keeps its velocity. Whatever its previous
      position, it ends inside the surface when the surface can hold it. */
  function Update(h: Head, width: real, height: real): (r: Head)
    ensures width >= h.size ==> 0.0 <= r.x <= width - h.size
    ensures height >= h.size ==> 0.0 <= r.y <= height - h.size
    ensures HitsSide(h, width) ==> r.vx == -h.vx
    ensures h.x + h.vx <= 0.0 ==> r.x == 0.0
    ensures h.x + h.vx > 0.0 && h.x + h.vx + h.size >= width ==> r.x == width - h.size
    ensures !HitsSide(h, width) ==> r.vx == h.vx && r.x == h.x + h.vx
    ensures HitsEnd(h, height) ==> r.vy == -h.vy
    ensures h.y + h.vy <= 0.0 ==> r.y == 0.0
    ensures h.y + h.vy > 0.0 && h.y + h.vy + h.size >= height ==> r.y == height - h.size
    ensures !HitsEnd(h, height) ==> r.vy == h.vy && r.y == h.y + h.vy
    ensures r.size == h.size
    ensures r.rotation == h.rotation + h.rotationSpeed
    ensures r.rotationSpeed == h.rotationSpeed
  {
    var x := h.x + h.vx;
    var y := h.y + h.vy;
    var (x', vx') :=
      if x <= 0.0 then (0.0, h.vx * -1.0)
      else if x + h.size >= width then (width - h.size, h.vx * -1.0)
      else (x, h.vx);
    var (y', vy') :=
      if y <= 0.0 then (0.0, h.vy * -1.0)
      else if y + h.size >= height then (height - h.size, h.vy * -1.0)
      else (y, h.vy);
    Head(x', y', vx', vy', h.size, h.rotation + h.rotationSpeed, h.rotationSpeed)
  }

  /** A medallion on a surface that holds it stays inside after any number of
      updates, and never changes size. */
  lemma {:induction false} StaysInBox(h: Head, width: real, height: real, n: nat)
    requires width >= h.size && height >= h.size
    ensures InBox(UpdateN(h, width, height, n), width, height) || n == 0
    ensures UpdateN(h, width, height, n).size == h.size
  {
    if n > 0 {
      StaysInBox(h, width, height, n - 1);
    }
  }

  /** `n` successive updates on the same surface. */
  function UpdateN(h: Head, width: real, height: real, n: nat): Head
  {
    if n == 0 then h else Update(UpdateN(h, width, height, n - 1), width, height)
  }

  /** The pool built on activation and on every resize. */
  function InitHeads(width: real, height: real, draws: nat -> HeadDraw): (hs: seq<Head>)
    ensures |hs| == PoolSize
    ensures width >= MaxSize && height >= MaxSize ==>
              forall k :: 0 <= k < |hs| ==> InBox(hs[k], width, height)
  {
    var hs := seq(PoolSize, k requires 0 <= k => NewHead(width, height, draws(k)));
    assert forall k :: 0 <= k < |hs| ==> hs[k] == NewHead(width, height, draws(k));
    hs
  }

  /** The head pass of one frame: every medallion updated once, in place. */
  function UpdateAll(hs: seq<Head>, width: real, height: real): (rs: seq<Head>)
    ensures |rs| == |hs|
    ensures forall k :: 0 <= k < |hs| && width >= hs[k].size && height >= hs[k].size ==>
              InBox(rs[k], width, height) && rs[k].size == hs[k].size
  {
    seq(|hs|, k requires 0 <= k < |hs| => Update(hs[k], width, height))
  }
}
