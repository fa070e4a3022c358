/** Values the effects engine takes from its host: random draws and colours. */
module Draws {

  /** One value returned by `Math.random()`: a real in [0, 1). Every random
      choice of the engine is passed in as one of these, so the behaviour is
      deterministic for a given set of draws. */
  type Draw = r: real | 0.0 <= r < 1.0

  /** The unit vector (cos a, sin a) of a random angle a. The trigonometry is
      computed by the host; the model only relies on the vector having length 1. */
  type Direction = d: (real, real) | d.0 * d.0 + d.1 * d.1 == 1.0 witness (1.0, 0.0)

  /** The colour string `hsl(hue, 100%, lightness%)`, kept as its two varying
      parts. Rendering is not modelled, so colours are only copied around. */
  datatype Color = Hsl(hue: real, lightness: nat)

  lemma ProductNonNegative(a: real, b: real)
    requires a >= 0.0 && b >= 0.0
    ensures a * b >= 0.0
  {
  }

  /** A uniformly random point of [0, extent): `Math.random() * extent`. */
  function Scale(d: Draw, extent: real): (v: real)
    ensures extent >= 0.0 ==> 0.0 <= v <= extent
  {
    assert extent >= 0.0 ==> 0.0 <= d * extent <= extent by {
      if extent >= 0.0 {
        ProductNonNegative(1.0 - d, extent);
        ProductNonNegative(d, extent);
        assert extent - d * extent == (1.0 - d) * extent;
      }
    }
    d * extent
  }

  /** A random hue in [0, 360) at the given lightness. */
  function RandomHue(d: Draw, lightness: nat): (c: Color)
    ensures 0.0 <= c.hue < 360.0
    ensures c.lightness == lightness
  {
    Hsl(d * 360.0, lightness)
  }
}
