/** `DrawingBoardCanvas`: a UI canvas that stamps hard-edged white disks into
    a black texture under the mouse, and clears itself from a buffer of
    background pixels prepared at start-up. */
module Canvas {
  import opened Numerics
  import opened Pixels
  import opened Texture

  /** Where a disk lands: texture size, centre pixel and brush radius. */
  datatype Disk = Disk(w: int, h: int, cx: int, cy: int, r: int)

  /** The offset (x, y) passes the radius test `x*x + y*y <= r*r`. */
  predicate InDisk(x: int, y: int, r: int)
  {
    x * x + y * y <= r * r
  }

  /** The shifted pixel passes the clipping test against the texture. */
  predicate OnCanvas(d: Disk, x: int, y: int)
  {
    0 <= d.cx + x < d.w && 0 <= d.cy + y < d.h
  }

  /** The offset is painted: inside the radius and on the texture. */
  predicate Hits(d: Disk, x: int, y: int)
  {
    InDisk(x, y, d.r) && OnCanvas(d, x, y)
  }

  /** Buffer slot written for offset (x, y). */
  function Target(d: Disk, x: int, y: int): int
  {
    Idx(d.cx + x, d.cy + y, d.w)
  }

  /** Slot `k` is written by some offset the loops visit. */
  ghost predicate Covered(d: Disk, k: int)
  {
    exists x, y :: InSquare(x, y, d.r) && Hits(d, x, y) && Target(d, x, y) == k
  }

  /** The buffer is this canvas's texture. (The MNIST board has its own
      `Board.Fits` over its brush, as the two boards are separate classes.) */
  predicate Fits(b: seq<Color>, d: Disk)
  {
    0 < d.w && 0 < d.h && |b| == d.w * d.h
  }

  /** One pass of the inner loop body at offset (x, y). */
  function StampStep(b: seq<Color>, d: Disk, ink: Color, x: int, y: int): (b': seq<Color>)
    requires Fits(b, d)
    ensures |b'| == |b|
  {
    if Hits(d, x, y) then
      IdxInRange(d.cx + x, d.cy + y, d.w, d.h);
      b[Target(d, x, y) := ink]
    else b
  }

  /** The inner loop from row offset `y` up to `r`, in column `x`. */
  function StampColumn(b: seq<Color>, d: Disk, ink: Color, x: int, y: int): (b': seq<Color>)
    requires Fits(b, d)
    ensures |b'| == |b|
    decreases d.r + 1 - y
  {
    if y > d.r then b else StampColumn(StampStep(b, d, ink, x, y), d, ink, x, y + 1)
  }

  /** The outer loop from column offset `x` up to `r`. */
  function StampFrom(b: seq<Color>, d: Disk, ink: Color, x: int): (b': seq<Color>)
    requires Fits(b, d)
    ensures |b'| == |b|
    decreases d.r + 1 - x
  {
    if x > d.r then b else StampFrom(StampColumn(b, d, ink, x, -d.r), d, ink, x + 1)
  }

  /** The buffer after `DrawCircle`: both loops run from `-r` to `r`. */
  function Stamp(b: seq<Color>, d: Disk, ink: Color): (b': seq<Color>)
    requires Fits(b, d)
    ensures |b'| == |b|
  {
    StampFrom(b, d, ink, -d.r)
  }

  lemma {:induction false} ColumnUntouched(b: seq<Color>, d: Disk, ink: Color, x: int, y: int, k: int)
    requires Fits(b, d) && 0 <= k < |b|
    requires forall y' :: y <= y' <= d.r && Hits(d, x, y') ==> Target(d, x, y') != k
    ensures StampColumn(b, d, ink, x, y)[k] == b[k]
    decreases d.r + 1 - y
  {
    if y <= d.r {
      ColumnUntouched(StampStep(b, d, ink, x, y), d, ink, x, y + 1, k);
    }
  }

  lemma {:induction false} FromUntouched(b: seq<Color>, d: Disk, ink: Color, x: int, k: int)
    requires Fits(b, d) && 0 <= k < |b|
    requires forall x', y' :: x <= x' <= d.r && -d.r <= y' <= d.r && Hits(d, x', y') ==> Target(d, x', y') != k
    ensures StampFrom(b, d, ink, x)[k] == b[k]
    decreases d.r + 1 - x
  {
    if x <= d.r {
      ColumnUntouched(b, d, ink, x, -d.r, k);
      FromUntouched(StampColumn(b, d, ink, x, -d.r), d, ink, x + 1, k);
    }
  }

  /** Once a slot holds the ink, further stamping keeps it there. */
  lemma {:induction false} ColumnKeepsInk(b: seq<Color>, d: Disk, ink: Color, x: int, y: int, k: int)
    requires Fits(b, d) && 0 <= k < |b| && b[k] == ink
    ensures StampColumn(b, d, ink, x, y)[k] == ink
    decreases d.r + 1 - y
  {
    if y <= d.r {
      ColumnKeepsInk(StampStep(b, d, ink, x, y), d, ink, x, y + 1, k);
    }
  }

  lemma {:induction false} FromKeepsInk(b: seq<Color>, d: Disk, ink: Color, x: int, k: int)
    requires Fits(b, d) && 0 <= k < |b| && b[k] == ink
    ensures StampFrom(b, d, ink, x)[k] == ink
    decreases d.r + 1 - x
  {
    if x <= d.r {
      ColumnKeepsInk(b, d, ink, x, -d.r, k);
      FromKeepsInk(StampColumn(b, d, ink, x, -d.r), d, ink, x + 1, k);
    }
  }

  lemma {:induction false} ColumnPaints(b: seq<Color>, d: Disk, ink: Color, x: int, y: int, y': int)
    requires Fits(b, d) && y <= y' <= d.r && Hits(d, x, y')
    ensures 0 <= Target(d, x, y') < |b|
    ensures StampColumn(b, d, ink, x, y)[Target(d, x, y')] == ink
    decreases d.r + 1 - y
  {
    IdxInRange(d.cx + x, d.cy + y', d.w, d.h);
    var b1 := StampStep(b, d, ink, x, y);
    if y == y' {
      ColumnKeepsInk(b1, d, ink, x, y + 1, Target(d, x, y'));
    } else {
      ColumnPaints(b1, d, ink, x, y + 1, y');
    }
  }

  lemma {:induction false} FromPaints(b: seq<Color>, d: Disk, ink: Color, x: int, x': int, y': int)
    requires Fits(b, d) && x <= x' <= d.r && -d.r <= y' <= d.r && Hits(d, x', y')
    ensures 0 <= Target(d, x', y') < |b|
    ensures StampFrom(b, d, ink, x)[Target(d, x', y')] == ink
    decreases d.r + 1 - x
  {
    var b1 := StampColumn(b, d, ink, x, -d.r);
    if x == x' {
      ColumnPaints(b, d, ink, x, -d.r, y');
      FromKeepsInk(b1, d, ink, x + 1, Target(d, x', y'));
    } else {
      FromPaints(b1, d, ink, x + 1, x', y');
    }
  }

  /** What `DrawCircle` does to each slot: a slot some visited offset inside
      the radius lands on (and is therefore on the texture) becomes the ink;
      every other slot keeps its colour. */
  lemma StampSpec(b: seq<Color>, d: Disk, ink: Color, k: int)
    requires Fits(b, d) && 0 <= k < |b|
    ensures Stamp(b, d, ink)[k] == if Covered(d, k) then ink else b[k]
  {
    if Covered(d, k) {
      var x, y :| InSquare(x, y, d.r) && Hits(d, x, y) && Target(d, x, y) == k;
      FromPaints(b, d, ink, -d.r, x, y);
    } else {
      FromUntouched(b, d, ink, -d.r, k);
    }
  }

  /** Every on-texture pixel within the radius of the centre ends up inked. */
  lemma StampPaintsDisk(b: seq<Color>, d: Disk, ink: Color, x: int, y: int)
    requires Fits(b, d) && InSquare(x, y, d.r) && Hits(d, x, y)
    ensures 0 <= Target(d, x, y) < |b|
    ensures Stamp(b, d, ink)[Target(d, x, y)] == ink
  {
    FromPaints(b, d, ink, -d.r, x, y);
  }

  /** Stamping twice at the same centre gives the same buffer as once. */
  lemma StampIdempotent(b: seq<Color>, d: Disk, ink: Color)
    requires Fits(b, d)
    ensures Stamp(Stamp(b, d, ink), d, ink) == Stamp(b, d, ink)
  {
    var once := Stamp(b, d, ink);
    forall k | 0 <= k < |b|
      ensures Stamp(once, d, ink)[k] == once[k]
    {
      StampSpec(b, d, ink, k);
      StampSpec(once, d, ink, k);
    }
  }

  /** A negative radius draws nothing: the loops visit no offset. */
  lemma StampNegativeRadius(b: seq<Color>, d: Disk, ink: Color)
    requires Fits(b, d) && d.r < 0
    ensures Stamp(b, d, ink) == b
  {
  }

  /** `(int)(local + size / 2)`: a pointer position relative to the centre of
      the canvas rectangle, in canvas units, becomes a pixel column or row.
      `size / 2` is integer division; a position inside the rectangle lands
      on the texture. */
  function PointerToPixel(local: real, size: int): (p: int)
    requires 0 < size
    ensures -((size / 2) as real) <= local < (size - size / 2) as real ==> 0 <= p < size
  {
    TruncToInt(local + (size / 2) as real)
  }

  class DrawingBoardCanvas {
    const width: int
    const height: int
    const brushSize: int
    const drawTexture: Texture2D
    const clearColors: array<Color>
    const drawColor: Color
    const backgroundColor: Color

    ghost predicate Valid()
      reads this, drawTexture, clearColors
    {
      drawTexture.Valid() && drawTexture.width == width && drawTexture.height == height &&
      clearColors.Length == width * height && clearColors != drawTexture.pixels &&
      forall i :: 0 <= i < clearColors.Length ==> clearColors[i] == backgroundColor
    }

    /** The whole texture shows the background colour. */
    ghost predicate Blank()
      reads this, drawTexture, drawTexture.pixels
    {
      forall i :: 0 <= i < drawTexture.pixels.Length ==> drawTexture.pixels[i] == backgroundColor
    }

    /** `Start`: allocate the texture and the clear buffer of `width * height`
        background pixels, then show the cleared texture. */
    constructor (w: int, h: int, brush: int)
      requires 0 < w && 0 < h
      ensures Valid() && Blank()
      ensures width == w && height == h && brushSize == brush
      ensures drawColor == White && backgroundColor == Black
      ensures fresh(drawTexture) && fresh(drawTexture.pixels) && fresh(clearColors)
    {
      width, height, brushSize := w, h, brush;
      drawColor, backgroundColor := White, Black;
      var t := new Texture2D(w, h);
      var buf := FilledBuffer(w * h, Black);
      drawTexture, clearColors := t, buf;
      new;
      drawTexture.SetPixels(clearColors);
    }

    /** `DrawCircle(cx, cy)`: the stamp of radius `brushSize` at (cx, cy). */
    method DrawCircle(cx: int, cy: int)
      requires Valid()
      modifies drawTexture.pixels
      ensures Valid()
      ensures drawTexture.pixels[..] == Stamp(old(drawTexture.pixels[..]), Disk(width, height, cx, cy, brushSize), drawColor)
      ensures forall k :: 0 <= k < drawTexture.pixels.Length ==>
        drawTexture.pixels[k] == if Covered(Disk(width, height, cx, cy, brushSize), k) then drawColor else old(drawTexture.pixels[k])
    {
      var d := Disk(width, height, cx, cy, brushSize);
      ghost var b0 := drawTexture.pixels[..];
      var x := -brushSize;
      while x <= brushSize
        invariant Fits(drawTexture.pixels[..], d)
        invariant x <= brushSize + 1 || brushSize < 0
        invariant StampFrom(drawTexture.pixels[..], d, drawColor, x) == Stamp(b0, d, drawColor)
        decreases brushSize + 1 - x
      {
        var y := -brushSize;
        while y <= brushSize
          invariant Fits(drawTexture.pixels[..], d)
          invariant StampFrom(StampColumn(drawTexture.pixels[..], d, drawColor, x, y), d, drawColor, x + 1) == Stamp(b0, d, drawColor)
          decreases brushSize + 1 - y
        {
          if x * x + y * y <= brushSize * brushSize {
            var px := cx + x;
            var py := cy + y;
            if px >= 0 && px < width && py >= 0 && py < height {
              drawTexture.SetPixel(px, py, drawColor);
            }
          }
          y := y + 1;
        }
        x := x + 1;
      }
      forall k | 0 <= k < drawTexture.pixels.Length
        ensures drawTexture.pixels[k] == if Covered(d, k) then drawColor else b0[k]
      {
        StampSpec(b0, d, drawColor, k);
      }
    }

    /** `ClearBoard`: copy the clear buffer over the texture. */
    method ClearBoard()
      requires Valid()
      modifies drawTexture.pixels
      ensures Valid() && Blank()
    {
      drawTexture.SetPixels(clearColors);
    }

    /** `Update`: while the left button is held and the pointer is not over
        another UI element, stamp at the pixel under the pointer. The pointer
        position, relative to the canvas centre, is an input. */
    method Update(buttonHeld: bool, overUI: bool, localX: real, localY: real)
      requires Valid()
      modifies drawTexture.pixels
      ensures Valid()
      ensures drawTexture.pixels[..] ==
        if buttonHeld && !overUI then
          Stamp(old(drawTexture.pixels[..]),
                Disk(width, height, PointerToPixel(localX, width), PointerToPixel(localY, height), brushSize), drawColor)
        else old(drawTexture.pixels[..])
    {
      if buttonHeld && !overUI {
        var px := PointerToPixel(localX, width);
        var py := PointerToPixel(localY, height);
        DrawCircle(px, py);
      }
    }
  }
}
