/** The part of Unity's `Texture2D` the boards rely on: a `width * height`
    pixel buffer laid out row by row, read and written one pixel or all at
    once. GPU upload (`Apply`) has no effect on the buffer and is left out. */
module Texture {
  import opened Numerics
  import opened Pixels

  class Texture2D {
    const width: int
    const height: int
    const pixels: array<Color>

    ghost predicate Valid()
      reads this
    {
      0 < width && 0 < height && pixels.Length == width * height
    }

    /** `new Texture2D(w, h)`: contents are whatever the engine gives; only the size is fixed. */
    constructor (w: int, h: int)
      requires 0 < w && 0 < h
      ensures Valid() && width == w && height == h && fresh(pixels)
    {
      width, height := w, h;
      pixels := new Color[w * h];
    }

    /** `GetPixel(x, y)`: the colour of column `x` of row `y`, stored row by row. */
    function GetPixel(x: int, y: int): (c: Color)
      requires Valid() && 0 <= x < width && 0 <= y < height
      reads this, pixels
      ensures 0 <= y * width + x < pixels.Length && c == pixels[y * width + x]
      ensures c in pixels[..]
    {
      IdxInRange(x, y, width, height);
      pixels[Idx(x, y, width)]
    }

    method SetPixel(x: int, y: int, c: Color)
      requires Valid() && 0 <= x < width && 0 <= y < height
      modifies pixels
      ensures Idx(x, y, width) < pixels.Length
      ensures pixels[..] == old(pixels[..])[Idx(x, y, width) := c]
    {
      IdxInRange(x, y, width, height);
      pixels[Idx(x, y, width)] := c;
    }

    /** `SetPixels(colors)`: the whole buffer becomes a copy of `colors`. */
    method SetPixels(colors: array<Color>)
      requires Valid() && colors.Length == pixels.Length && colors != pixels
      modifies pixels
      ensures pixels[..] == colors[..]
    {
      var i := 0;
      while i < pixels.Length
        invariant 0 <= i <= pixels.Length
        invariant pixels[..i] == colors[..i]
      {
        pixels[i] := colors[i];
        i := i + 1;
      }
    }
  }

  /** The buffer every board keeps to clear itself: `n` copies of `c`, filled
      one slot at a time as `Start` does. */
  method FilledBuffer(n: nat, c: Color) returns (buf: array<Color>)
    ensures fresh(buf) && buf.Length == n
    ensures forall i :: 0 <= i < n ==> buf[i] == c
  {
    buf := new Color[n];
    var i := 0;
    while i < n
      invariant 0 <= i <= n
      invariant forall j :: 0 <= j < i ==> buf[j] == c
    {
      buf[i] := c;
      i := i + 1;
    }
  }
}
