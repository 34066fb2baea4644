/** Unity's `Color` as four real channels, the colours the boards use, the
    `Color.Lerp` blend and the `grayscale` luma the classifiers read. Channels
    are exact reals here; single-precision rounding is not modelled. */
module Pixels {

  datatype Color = Color(r: real, g: real, b: real, a: real)

  /** `Color.white`, the ink of both drawing boards. */
  const White: Color := Color(1.0, 1.0, 1.0, 1.0)

  /** `Color.black`, the background of both drawing boards. */
  const Black: Color := Color(0.0, 0.0, 0.0, 1.0)

  function Clamp01(t: real): (u: real)
    ensures 0.0 <= u <= 1.0
    ensures 0.0 <= t <= 1.0 ==> u == t
  {
    if t < 0.0 then 0.0 else if t > 1.0 then 1.0 else t
  }

  /** `Color.Lerp(a, b, t)`: channel-wise `a + (b - a) * t` with `t` clamped to [0, 1]. */
  function Lerp(a: Color, b: Color, t: real): Color
  {
    var u := Clamp01(t);
    Color(a.r + (b.r - a.r) * u, a.g + (b.g - a.g) * u,
          a.b + (b.b - a.b) * u, a.a + (b.a - a.a) * u)
  }

  /** `z` lies between `x` and `y`, in whichever order they come. */
  predicate InRange(x: real, y: real, z: real)
  {
    (x <= z <= y) || (y <= z <= x)
  }

  /** Every channel of `c` lies between the same channel of `from` and `to`. */
  predicate Between(from: Color, to: Color, c: Color)
  {
    InRange(from.r, to.r, c.r) && InRange(from.g, to.g, c.g) &&
    InRange(from.b, to.b, c.b) && InRange(from.a, to.a, c.a)
  }

  lemma MulNonneg(p: real, q: real)
    requires 0.0 <= p && 0.0 <= q
    ensures 0.0 <= p * q
  {
  }

  lemma ChannelLerp(x: real, y: real, u: real)
    requires 0.0 <= u <= 1.0
    ensures InRange(x, y, x + (y - x) * u)
  {
    if x <= y {
      MulNonneg(y - x, u);
      MulNonneg(y - x, 1.0 - u);
      assert (y - x) * (1.0 - u) == (y - x) - (y - x) * u;
    } else {
      MulNonneg(x - y, u);
      MulNonneg(x - y, 1.0 - u);
      assert (x - y) * (1.0 - u) == (x - y) - (x - y) * u;
      assert (x - y) * u == -((y - x) * u);
    }
  }

  /** A blend never leaves the box spanned by its two end colours. */
  lemma LerpBetween(a: Color, b: Color, t: real)
    ensures Between(a, b, Lerp(a, b, t))
  {
    var u := Clamp01(t);
    ChannelLerp(a.r, b.r, u);
    ChannelLerp(a.g, b.g, u);
    ChannelLerp(a.b, b.b, u);
    ChannelLerp(a.a, b.a, u);
  }

  /** Blending towards `to` again from a colour already between `from` and
      `to` stays between `from` and `to`. */
  lemma BetweenTrans(from: Color, to: Color, c1: Color, c2: Color)
    requires Between(from, to, c1) && Between(c1, to, c2)
    ensures Between(from, to, c2)
  {
  }

  lemma BetweenRefl(from: Color, to: Color)
    ensures Between(from, to, from)
  {
  }

  /** Channels of a displayable colour lie in [0, 1]. */
  predicate InGamut(c: Color)
  {
    0.0 <= c.r <= 1.0 && 0.0 <= c.g <= 1.0 && 0.0 <= c.b <= 1.0 && 0.0 <= c.a <= 1.0
  }

  /** `Color.grayscale`: the luma `0.299 r + 0.587 g + 0.114 b`. For a colour
      in gamut it is already in the 0..1 range the classifiers expect; it
      ignores alpha, so black reads 0 and white reads 1. */
  function Grayscale(c: Color): (y: real)
    ensures InGamut(c) ==> 0.0 <= y <= 1.0
    ensures c.r == c.g == c.b ==> y == c.r
  {
    0.299 * c.r + 0.587 * c.g + 0.114 * c.b
  }
}
