/** `DrawingBoard` of the MNIST scene: a textured quad the user paints with a
    soft round brush (mouse or touch), clears with a double tap, and reads
    back down-sampled for the classifier. */
module Board {
  import opened Numerics
  import opened Pixels
  import opened Texture

  /** `Option`, for a raycast that may miss the board. */
  datatype Option<T> = None | Some(value: T)

  /** Where a soft stamp lands: texture size, centre pixel, radius, and the
      Gaussian falloff `f(q) = exp(-4 q)` of the squared relative distance
      `q = (distance / radius)^2`, left uninterpreted. */
  datatype Brush = Brush(w: int, h: int, cx: int, cy: int, r: int, falloff: real -> real)

  /** `distance < brushRadius` with `distance = sqrt(i*i + j*j)`, over the reals. */
  predicate InBrush(i: int, j: int, r: int)
  {
    0 < r && i * i + j * j < r * r
  }

  /** The buffer is the brush's texture; the counterpart of `Canvas.Fits`
      for this board's own brush. */
  predicate Fits(b: seq<Color>, s: Brush)
  {
    0 < s.w && 0 < s.h && |b| == s.w * s.h
  }

  /** The slot offset (i, j) updates: the shifted pixel clamped onto the texture. */
  function Target(s: Brush, i: int, j: int): (k: int)
    requires 0 < s.w && 0 < s.h
    ensures 0 <= k < s.w * s.h
  {
    IdxInRange(Clamp(s.cx + i, 0, s.w - 1), Clamp(s.cy + j, 0, s.h - 1), s.w, s.h);
    Idx(Clamp(s.cx + i, 0, s.w - 1), Clamp(s.cy + j, 0, s.h - 1), s.w)
  }

  /** The blend weight at offset (i, j): `exp(-4 (distance / radius)^2)`. */
  function Alpha(s: Brush, i: int, j: int): real
    requires InBrush(i, j, s.r)
  {
    s.falloff((i * i + j * j) as real / (s.r * s.r) as real)
  }

  /** Slot `k` is read-modify-written by some offset the loops visit. */
  ghost predicate Reached(s: Brush, k: int)
    requires 0 < s.w && 0 < s.h
  {
    exists i, j :: InSquare(i, j, s.r) && InBrush(i, j, s.r) && Target(s, i, j) == k
  }

  /** One pass of the inner loop body at offset (i, j). */
  function SoftStep(b: seq<Color>, s: Brush, ink: Color, i: int, j: int): (b': seq<Color>)
    requires Fits(b, s)
    ensures |b'| == |b|
  {
    if InBrush(i, j, s.r) then
      var k := Target(s, i, j);
      b[k := Lerp(b[k], ink, Alpha(s, i, j))]
    else b
  }

  function SoftColumn(b: seq<Color>, s: Brush, ink: Color, i: int, j: int): (b': seq<Color>)
    requires Fits(b, s)
    ensures |b'| == |b|
    decreases s.r + 1 - j
  {
    if j > s.r then b else SoftColumn(SoftStep(b, s, ink, i, j), s, ink, i, j + 1)
  }

  function SoftFrom(b: seq<Color>, s: Brush, ink: Color, i: int): (b': seq<Color>)
    requires Fits(b, s)
    ensures |b'| == |b|
    decreases s.r + 1 - i
  {
    if i > s.r then b else SoftFrom(SoftColumn(b, s, ink, i, -s.r), s, ink, i + 1)
  }

  /** The buffer after `DrawAt`: both loops run from `-brushSize` to `brushSize`. */
  function SoftStamp(b: seq<Color>, s: Brush, ink: Color): (b': seq<Color>)
    requires Fits(b, s)
    ensures |b'| == |b|
  {
    SoftFrom(b, s, ink, -s.r)
  }

  lemma {:induction false} SoftColumnUntouched(b: seq<Color>, s: Brush, ink: Color, i: int, j: int, k: int)
    requires Fits(b, s) && 0 <= k < |b|
    requires forall j' :: j <= j' <= s.r && InBrush(i, j', s.r) ==> Target(s, i, j') != k
    ensures SoftColumn(b, s, ink, i, j)[k] == b[k]
    decreases s.r + 1 - j
  {
    if j <= s.r {
      SoftColumnUntouched(SoftStep(b, s, ink, i, j), s, ink, i, j + 1, k);
    }
  }

  lemma {:induction false} SoftFromUntouched(b: seq<Color>, s: Brush, ink: Color, i: int, k: int)
    requires Fits(b, s) && 0 <= k < |b|
    requires forall i', j' :: i <= i' <= s.r && -s.r <= j' <= s.r && InBrush(i', j', s.r) ==> Target(s, i', j') != k
    ensures SoftFrom(b, s, ink, i)[k] == b[k]
    decreases s.r + 1 - i
  {
    if i <= s.r {
      SoftColumnUntouched(b, s, ink, i, -s.r, k);
      SoftFromUntouched(SoftColumn(b, s, ink, i, -s.r), s, ink, i + 1, k);
    }
  }

  lemma {:induction false} SoftColumnBetween(b: seq<Color>, s: Brush, ink: Color, i: int, j: int, k: int)
    requires Fits(b, s) && 0 <= k < |b|
    ensures Between(b[k], ink, SoftColumn(b, s, ink, i, j)[k])
    decreases s.r + 1 - j
  {
    if j > s.r {
      BetweenRefl(b[k], ink);
    } else {
      var b1 := SoftStep(b, s, ink, i, j);
      if InBrush(i, j, s.r) && Target(s, i, j) == k {
        LerpBetween(b[k], ink, Alpha(s, i, j));
      } else {
        BetweenRefl(b[k], ink);
      }
      SoftColumnBetween(b1, s, ink, i, j + 1, k);
      BetweenTrans(b[k], ink, b1[k], SoftColumn(b1, s, ink, i, j + 1)[k]);
    }
  }

  lemma {:induction false} SoftFromBetween(b: seq<Color>, s: Brush, ink: Color, i: int, k: int)
    requires Fits(b, s) && 0 <= k < |b|
    ensures Between(b[k], ink, SoftFrom(b, s, ink, i)[k])
    decreases s.r + 1 - i
  {
    if i > s.r {
      BetweenRefl(b[k], ink);
    } else {
      var b1 := SoftColumn(b, s, ink, i, -s.r);
      SoftColumnBetween(b, s, ink, i, -s.r, k);
      SoftFromBetween(b1, s, ink, i + 1, k);
      BetweenTrans(b[k], ink, b1[k], SoftFrom(b1, s, ink, i + 1)[k]);
    }
  }

  /** What `DrawAt` does to each slot: every channel ends between its old
      value and the ink's, and a slot no offset inside the radius clamps onto
      keeps its colour. */
  lemma SoftStampSpec(b: seq<Color>, s: Brush, ink: Color, k: int)
    requires Fits(b, s) && 0 <= k < |b|
    ensures Between(b[k], ink, SoftStamp(b, s, ink)[k])
    ensures !Reached(s, k) ==> SoftStamp(b, s, ink)[k] == b[k]
  {
    SoftFromBetween(b, s, ink, -s.r, k);
    if !Reached(s, k) {
      SoftFromUntouched(b, s, ink, -s.r, k);
    }
  }

  lemma {:induction false} SoftColumnKeepsInk(b: seq<Color>, s: Brush, ink: Color, i: int, j: int, k: int)
    requires Fits(b, s) && 0 <= k < |b| && b[k] == ink
    ensures SoftColumn(b, s, ink, i, j)[k] == ink
    decreases s.r + 1 - j
  {
    if j <= s.r {
      SoftColumnKeepsInk(SoftStep(b, s, ink, i, j), s, ink, i, j + 1, k);
    }
  }

  lemma {:induction false} SoftFromKeepsInk(b: seq<Color>, s: Brush, ink: Color, i: int, k: int)
    requires Fits(b, s) && 0 <= k < |b| && b[k] == ink
    ensures SoftFrom(b, s, ink, i)[k] == ink
    decreases s.r + 1 - i
  {
    if i <= s.r {
      SoftColumnKeepsInk(b, s, ink, i, -s.r, k);
      SoftFromKeepsInk(SoftColumn(b, s, ink, i, -s.r), s, ink, i + 1, k);
    }
  }

  lemma {:induction false} SoftColumnPaints(b: seq<Color>, s: Brush, ink: Color, i: int, j: int, j': int)
    requires Fits(b, s) && j <= j' <= s.r && InBrush(i, j', s.r) && Alpha(s, i, j') == 1.0
    ensures SoftColumn(b, s, ink, i, j)[Target(s, i, j')] == ink
    decreases s.r + 1 - j
  {
    var b1 := SoftStep(b, s, ink, i, j);
    if j == j' {
      SoftColumnKeepsInk(b1, s, ink, i, j + 1, Target(s, i, j'));
    } else {
      SoftColumnPaints(b1, s, ink, i, j + 1, j');
    }
  }

  lemma {:induction false} SoftFromPaints(b: seq<Color>, s: Brush, ink: Color, i: int, i': int, j': int)
    requires Fits(b, s) && i <= i' <= s.r && -s.r <= j' <= s.r
    requires InBrush(i', j', s.r) && Alpha(s, i', j') == 1.0
    ensures SoftFrom(b, s, ink, i)[Target(s, i', j')] == ink
    decreases s.r + 1 - i
  {
    var b1 := SoftColumn(b, s, ink, i, -s.r);
    if i == i' {
      SoftColumnPaints(b, s, ink, i, -s.r, j');
      SoftFromKeepsInk(b1, s, ink, i + 1, Target(s, i', j'));
    } else {
      SoftFromPaints(b1, s, ink, i + 1, i', j');
    }
  }

  /** Once a slot holds the ink, no later soft stamp in the same ink moves it. */
  lemma SoftStampKeepsInk(b: seq<Color>, s: Brush, ink: Color, k: int)
    requires Fits(b, s) && 0 <= k < |b| && b[k] == ink
    ensures SoftStamp(b, s, ink)[k] == ink
  {
    SoftFromKeepsInk(b, s, ink, -s.r, k);
  }

  /** With the falloff's full weight `exp(0) = 1` at distance 0, a brush of
      radius at least 1 turns the pixel under its centre into the ink. */
  lemma SoftStampPaintsCentre(b: seq<Color>, s: Brush, ink: Color)
    requires Fits(b, s) && 1 <= s.r && s.falloff(0.0) == 1.0
    ensures SoftStamp(b, s, ink)[Target(s, 0, 0)] == ink
  {
    assert (0 * 0 + 0 * 0) as real / (s.r * s.r) as real == 0.0;
    SoftFromPaints(b, s, ink, -s.r, 0, 0);
  }

  /** With `brushSize <= 0` the radius test never passes and nothing changes. */
  lemma SoftStampNoBrush(b: seq<Color>, s: Brush, ink: Color)
    requires Fits(b, s) && s.r <= 0
    ensures SoftStamp(b, s, ink) == b
  {
    forall k | 0 <= k < |b|
      ensures SoftStamp(b, s, ink)[k] == b[k]
    {
      SoftFromUntouched(b, s, ink, -s.r, k);
    }
  }

  /** A press `now` counts as the second of a double tap when it comes less
      than `window` after the recorded tap. */
  predicate IsDoubleTap(last: real, now: real, window: real)
  {
    now - last < window
  }

  /** The recorded tap time after a press: reset to 0 on a double tap. */
  function NextTapTime(last: real, now: real, window: real): real
  {
    if IsDoubleTap(last, now, window) then 0.0 else now
  }

  /** For presses at `times` in order, starting from recorded time `last`:
      which of them clear the board. */
  function TapClears(last: real, times: seq<real>, window: real): (c: seq<bool>)
    ensures |c| == |times|
    decreases |times|
  {
    if times == [] then []
    else [IsDoubleTap(last, times[0], window)] + TapClears(NextTapTime(last, times[0], window), times[1..], window)
  }

  /** A press that did not clear, followed within the window by another,
      makes the second one clear. */
  lemma {:induction false} QuickSecondTapClears(last: real, times: seq<real>, window: real, n: nat)
    requires n + 1 < |times|
    requires !TapClears(last, times, window)[n] && times[n + 1] - times[n] < window
    ensures TapClears(last, times, window)[n + 1]
    decreases n
  {
    if n > 0 {
      QuickSecondTapClears(NextTapTime(last, times[0], window), times[1..], window, n - 1);
    }
  }

  /** A clear resets the recorded time to 0, so the press after it clears
      again only if it comes before time `window`: a triple tap clears once. */
  lemma {:induction false} NoClearRightAfterClear(last: real, times: seq<real>, window: real, n: nat)
    requires n + 1 < |times|
    requires TapClears(last, times, window)[n] && window <= times[n + 1]
    ensures !TapClears(last, times, window)[n + 1]
    decreases n
  {
    if n > 0 {
      NoClearRightAfterClear(NextTapTime(last, times[0], window), times[1..], window, n - 1);
    }
  }

  /** Presses spaced at least `window` apart (the first one `window` after the
      recorded time) never clear. */
  lemma {:induction false} SlowTapsNeverClear(last: real, times: seq<real>, window: real)
    requires times != [] ==> window <= times[0] - last
    requires forall n :: 0 <= n < |times| - 1 ==> window <= times[n + 1] - times[n]
    ensures forall n :: 0 <= n < |times| ==> !TapClears(last, times, window)[n]
    decreases |times|
  {
    if times != [] {
      var rest := times[1..];
      assert forall n :: 0 <= n < |rest| - 1 ==> rest[n + 1] - rest[n] == times[n + 2] - times[n + 1];
      SlowTapsNeverClear(NextTapTime(last, times[0], window), rest, window);
      var c := TapClears(last, times, window);
      assert forall n :: 1 <= n < |times| ==> c[n] == TapClears(times[0], rest, window)[n - 1];
    }
  }

  /** The normalised sampling coordinate `(float)x / (n - 1)`: the first and
      last column sample the edges of the texture. */
  function SampleCoord(x: int, n: int): (g: real)
    requires 2 <= n
    ensures 0 <= x < n ==> 0.0 <= g <= 1.0
    ensures x == 0 ==> g == 0.0
    ensures x == n - 1 ==> g == 1.0
  {
    x as real / (n - 1) as real
  }

  /** What `GetResizedForModel` stores in slot `k` of an `n * n` image. */
  function SampleSlot(bilinear: (real, real) -> Color, k: int, n: int): Color
    requires 2 <= n
  {
    bilinear(SampleCoord(k % n, n), SampleCoord(k / n, n))
  }

  /** `y * n`, the first slot of row `y`, built up one row at a time. */
  function RowStart(y: nat, n: nat): nat
  {
    if y == 0 then 0 else RowStart(y - 1, n) + n
  }

  lemma {:induction false} RowStartIsProduct(y: nat, n: nat)
    ensures RowStart(y, n) == Idx(0, y, n)
  {
    if y > 0 {
      RowStartIsProduct(y - 1, n);
    }
  }

  /** Slot `y * n + x` of an `n * n` image is in range and samples (x, y). */
  lemma SlotAt(bilinear: (real, real) -> Color, x: int, y: nat, n: int)
    requires 2 <= n && 0 <= x < n && y < n
    ensures RowStart(y, n) + n <= n * n && Idx(x, y, n) == RowStart(y, n) + x
    ensures SampleSlot(bilinear, Idx(x, y, n), n) == bilinear(SampleCoord(x, n), SampleCoord(y, n))
  {
    RowStartIsProduct(y, n);
    IdxInRange(n - 1, y, n, n);
    IdxDecode(x, y, n);
  }

  /** `GetPixelBilinear` of a board whose pixels are `board`, as a function of the point. */
  function BoardSampler(sampler: (seq<Color>, real, real) -> Color, board: seq<Color>): (real, real) -> Color
  {
    (u, v) => sampler(board, u, v)
  }

  /** The image `GetResizedForModel` produces: `n * n` samples, row by row. */
  function Resampled(bilinear: (real, real) -> Color, n: int): seq<Color>
    requires 2 <= n
  {
    seq(n * n, k => SampleSlot(bilinear, k, n))
  }

  /** The resized image has exactly `n * n` slots; slot `k` holds the sample
      at column `k % n` and row `k / n`, both below `n`; and the pixel at
      (x, y) sits in slot `y * n + x` and samples `(x / (n - 1), y / (n - 1))`,
      a point of the unit square. */
  lemma ResampledSpec(bilinear: (real, real) -> Color, n: int, x: int, y: int)
    requires 2 <= n && 0 <= x < n && 0 <= y < n
    ensures |Resampled(bilinear, n)| == n * n
    ensures 0 <= Idx(x, y, n) < n * n
    ensures Resampled(bilinear, n)[Idx(x, y, n)] == bilinear(SampleCoord(x, n), SampleCoord(y, n))
    ensures 0.0 <= SampleCoord(x, n) <= 1.0 && 0.0 <= SampleCoord(y, n) <= 1.0
  {
    SlotAt(bilinear, x, y, n);
    IdxInRange(x, y, n, n);
  }

  lemma ResampledCovers(bilinear: (real, real) -> Color, n: int, k: int)
    requires 2 <= n && 0 <= k < n * n
    ensures 0 <= k % n < n && 0 <= k / n < n && k == Idx(k % n, k / n, n)
    ensures Resampled(bilinear, n)[k] == bilinear(SampleCoord(k % n, n), SampleCoord(k / n, n))
  {
    IdxCover(k, n, n);
  }

  /** The nested loops of `GetResizedForModel`: the `smallPixels` buffer,
      filled row by row. */
  method Downsample(n: int, bilinear: (real, real) -> Color) returns (smallPixels: array<Color>)
    requires 2 <= n
    ensures fresh(smallPixels) && smallPixels[..] == Resampled(bilinear, n)
  {
    smallPixels := new Color[n * n];
    var y := 0;
    ghost var filled := 0;
    while y < n
      invariant 0 <= y <= n && filled == RowStart(y, n) && filled <= smallPixels.Length
      invariant forall k :: 0 <= k < filled ==> smallPixels[k] == SampleSlot(bilinear, k, n)
    {
      var x := 0;
      SlotAt(bilinear, 0, y, n);
      while x < n
        invariant 0 <= x <= n && filled == RowStart(y, n) + x && RowStart(y, n) + n <= smallPixels.Length
        invariant forall k :: 0 <= k < filled ==> smallPixels[k] == SampleSlot(bilinear, k, n)
      {
        var gx := x as real / (n - 1) as real;
        var gy := y as real / (n - 1) as real;
        SlotAt(bilinear, x, y, n);
        smallPixels[Idx(x, y, n)] := bilinear(gx, gy);
        x, filled := x + 1, filled + 1;
      }
      y := y + 1;
    }
    RowStartIsProduct(n, n);
    assert smallPixels[..] == Resampled(bilinear, n);
  }

  datatype TouchPhase = Began | Moved | Stationary | Ended | Canceled

  /** One entry of `Input.touches`: its phase, whether it is over another UI
      element, and the texture coordinate the raycast hit, if any. */
  datatype Touch = Touch(phase: TouchPhase, overUI: bool, hit: Option<(real, real)>)

  /** The stamp `DrawAt(u, v)` makes for a hit at texture coordinate (u, v):
      centre `((int)(u * width), (int)(v * height))`, radius `brushSize`. */
  function BrushAt(w: int, h: int, brushSize: int, u: real, v: real, falloff: real -> real): Brush
  {
    Brush(w, h, TruncToInt(u * w as real), TruncToInt(v * h as real), brushSize, falloff)
  }

  /** The parts of a board the touch handler reads but does not change. */
  datatype Settings = Settings(w: int, h: int, brushSize: int, window: real, ink: Color, cleared: seq<Color>)

  predicate SettingsOk(cfg: Settings)
  {
    0 < cfg.w && 0 < cfg.h && |cfg.cleared| == cfg.w * cfg.h
  }

  /** The effect of one touch on the pixels and the recorded tap time. */
  function TouchStep(cfg: Settings, b: seq<Color>, last: real, t: Touch, now: real, falloff: real -> real): (e: (seq<Color>, real))
    requires SettingsOk(cfg) && |b| == cfg.w * cfg.h
    ensures |e.0| == |b|
  {
    if t.overUI then (b, last)
    else
      var drawn := if (t.phase == Moved || t.phase == Stationary) && t.hit.Some?
                   then SoftStamp(b, BrushAt(cfg.w, cfg.h, cfg.brushSize, t.hit.value.0, t.hit.value.1, falloff), cfg.ink)
                   else b;
      if t.phase == Ended then
        (if IsDoubleTap(last, now, cfg.window) then cfg.cleared else drawn, NextTapTime(last, now, cfg.window))
      else (drawn, last)
  }

  /** The touches of one frame, handled in order. */
  function TouchesEffect(cfg: Settings, b: seq<Color>, last: real, ts: seq<Touch>, now: real, falloff: real -> real): (e: (seq<Color>, real))
    requires SettingsOk(cfg) && |b| == cfg.w * cfg.h
    ensures |e.0| == |b|
    decreases |ts|
  {
    if ts == [] then (b, last)
    else
      var e1 := TouchStep(cfg, b, last, ts[0], now, falloff);
      TouchesEffect(cfg, e1.0, e1.1, ts[1..], now, falloff)
  }

  /** All touches of a frame share one time, so two fingers lifted in the
      same frame (the first not itself a double tap) count as a double tap:
      the board is cleared and the recorded time reset to 0. */
  lemma SimultaneousLiftsClear(cfg: Settings, b: seq<Color>, last: real, t1: Touch, t2: Touch,
                               now: real, falloff: real -> real)
    requires SettingsOk(cfg) && |b| == cfg.w * cfg.h && 0.0 < cfg.window
    requires t1.phase == Ended && !t1.overUI && t2.phase == Ended && !t2.overUI
    requires !IsDoubleTap(last, now, cfg.window)
    ensures TouchesEffect(cfg, b, last, [t1, t2], now, falloff) == (cfg.cleared, 0.0)
  {
    var e1 := TouchStep(cfg, b, last, t1, now, falloff);
    assert e1.1 == now;
    var e2 := TouchStep(cfg, e1.0, e1.1, t2, now, falloff);
    assert IsDoubleTap(e1.1, now, cfg.window);
    assert e2 == (cfg.cleared, 0.0);
    assert [t1, t2][1..] == [t2];
    assert TouchesEffect(cfg, e1.0, e1.1, [t2], now, falloff) == TouchesEffect(cfg, e2.0, e2.1, [], now, falloff);
  }

  class DrawingBoard {
    const width: int
    const height: int
    const modelInputSize: int
    var brushSize: int
    const drawTexture: Texture2D
    const clearColors: array<Color>
    const drawColor: Color
    const backgroundColor: Color
    const doubleTapTime: real
    var lastTapTime: real

    ghost predicate Valid()
      reads this, drawTexture, clearColors
    {
      drawTexture.Valid() && drawTexture.width == width && drawTexture.height == height &&
      clearColors.Length == width * height && clearColors != drawTexture.pixels &&
      forall i :: 0 <= i < clearColors.Length ==> clearColors[i] == backgroundColor
    }

    ghost predicate Blank()
      reads this, drawTexture, drawTexture.pixels
    {
      forall i :: 0 <= i < drawTexture.pixels.Length ==> drawTexture.pixels[i] == backgroundColor
    }

    /** `Start`: allocate the texture and a `width * height` clear buffer of
        background pixels, then clear the board. */
    constructor (w: int, h: int, inputSize: int, brush: int, tapWindow: real)
      requires 0 < w && 0 < h
      ensures Valid() && Blank()
      ensures width == w && height == h && modelInputSize == inputSize && brushSize == brush
      ensures doubleTapTime == tapWindow && lastTapTime == 0.0
      ensures drawColor == White && backgroundColor == Black
      ensures fresh(drawTexture) && fresh(drawTexture.pixels) && fresh(clearColors)
    {
      width, height, modelInputSize, brushSize := w, h, inputSize, brush;
      doubleTapTime, lastTapTime := tapWindow, 0.0;
      drawColor, backgroundColor := White, Black;
      var t := new Texture2D(w, h);
      var buf := FilledBuffer(w * h, Black);
      drawTexture, clearColors := t, buf;
      new;
      ClearBoard();
    }

    /** `ClearBoard`: copy the clear buffer over the texture. */
    method ClearBoard()
      requires Valid()
      modifies drawTexture.pixels
      ensures Valid() && Blank()
      ensures drawTexture.pixels[..] == clearColors[..]
    {
      drawTexture.SetPixels(clearColors);
    }

    /** `DrawAt(texCoord)`: blend the ink into every pixel within the brush
        radius of the hit point, clamping each target onto the texture. */
    method DrawAt(u: real, v: real, falloff: real -> real)
      requires Valid()
      modifies drawTexture.pixels
      ensures Valid()
      ensures drawTexture.pixels[..] == SoftStamp(old(drawTexture.pixels[..]), BrushAt(width, height, brushSize, u, v, falloff), drawColor)
      ensures forall k :: 0 <= k < drawTexture.pixels.Length ==>
        Between(old(drawTexture.pixels[k]), drawColor, drawTexture.pixels[k]) &&
        (!Reached(BrushAt(width, height, brushSize, u, v, falloff), k) ==> drawTexture.pixels[k] == old(drawTexture.pixels[k]))
      ensures 1 <= brushSize && falloff(0.0) == 1.0 ==>
        drawTexture.pixels[Target(BrushAt(width, height, brushSize, u, v, falloff), 0, 0)] == drawColor
    {
      var x := TruncToInt(u * width as real);
      var y := TruncToInt(v * height as real);
      var brushRadius := brushSize;
      var s := Brush(width, height, x, y, brushRadius, falloff);
      ghost var b0 := drawTexture.pixels[..];
      var i := -brushSize;
      while i <= brushSize
        invariant Fits(drawTexture.pixels[..], s)
        invariant SoftFrom(drawTexture.pixels[..], s, drawColor, i) == SoftStamp(b0, s, drawColor)
        decreases brushSize + 1 - i
      {
        var j := -brushSize;
        while j <= brushSize
          invariant Fits(drawTexture.pixels[..], s)
          invariant SoftFrom(SoftColumn(drawTexture.pixels[..], s, drawColor, i, j), s, drawColor, i + 1) == SoftStamp(b0, s, drawColor)
          decreases brushSize + 1 - j
        {
          var px := Clamp(x + i, 0, width - 1);
          var py := Clamp(y + j, 0, height - 1);
          if 0 < brushRadius && i * i + j * j < brushRadius * brushRadius {
            var alpha := falloff((i * i + j * j) as real / (brushRadius * brushRadius) as real);
            var current := drawTexture.GetPixel(px, py);
            var blended := Lerp(current, drawColor, alpha);
            drawTexture.SetPixel(px, py, blended);
          }
          j := j + 1;
        }
        i := i + 1;
      }
      forall k | 0 <= k < drawTexture.pixels.Length
        ensures Between(b0[k], drawColor, drawTexture.pixels[k])
        ensures !Reached(s, k) ==> drawTexture.pixels[k] == b0[k]
      {
        SoftStampSpec(b0, s, drawColor, k);
      }
      if 1 <= brushSize && falloff(0.0) == 1.0 {
        SoftStampPaintsCentre(b0, s, drawColor);
      }
    }

    /** The press half of the double-tap logic in `HandleMouseInput` and
        `HandleTouchInput`: a press within `doubleTapTime` of the recorded tap
        clears the board and resets the record to 0; any other press only
        records its time. */
    method Press(now: real)
      requires Valid()
      modifies this, drawTexture.pixels
      ensures Valid() && brushSize == old(brushSize)
      ensures lastTapTime == NextTapTime(old(lastTapTime), now, doubleTapTime)
      ensures drawTexture.pixels[..] ==
        if IsDoubleTap(old(lastTapTime), now, doubleTapTime) then clearColors[..] else old(drawTexture.pixels[..])
    {
      if now - lastTapTime < doubleTapTime {
        ClearBoard();
        lastTapTime := 0.0;
      } else {
        lastTapTime := now;
      }
    }

    /** `HandleMouseInput` for one frame. While the button is held over
        another UI element the whole handler returns early, skipping the
        double-click and the `C` key too. */
    method HandleMouseInput(held: bool, pressed: bool, keyC: bool, overUI: bool,
                            hit: Option<(real, real)>, now: real, falloff: real -> real)
      requires Valid()
      modifies this, drawTexture.pixels
      ensures Valid() && brushSize == old(brushSize)
      ensures held && overUI ==>
        lastTapTime == old(lastTapTime) && drawTexture.pixels[..] == old(drawTexture.pixels[..])
      ensures !(held && overUI) ==>
        lastTapTime == (if pressed then NextTapTime(old(lastTapTime), now, doubleTapTime) else old(lastTapTime))
      ensures !(held && overUI) ==>
        var drawn := if held && hit.Some? then SoftStamp(old(drawTexture.pixels[..]), BrushAt(width, height, brushSize, hit.value.0, hit.value.1, falloff), drawColor)
                     else old(drawTexture.pixels[..]);
        var tapped := if pressed && IsDoubleTap(old(lastTapTime), now, doubleTapTime) then clearColors[..] else drawn;
        drawTexture.pixels[..] == if keyC then clearColors[..] else tapped
    {
      if held {
        if overUI {
          return;
        }
        if hit.Some? {
          DrawAt(hit.value.0, hit.value.1, falloff);
        }
      }
      if pressed {
        Press(now);
      }
      if keyC {
        ClearBoard();
      }
    }

    /** What the touch handlers depend on, none of which they change. */
    function Config(): Settings
      reads this, clearColors
    {
      Settings(width, height, brushSize, doubleTapTime, drawColor, clearColors[..])
    }

    /** The body of the loop in `HandleTouchInput`, for one touch. */
    method HandleTouch(touch: Touch, now: real, falloff: real -> real)
      requires Valid()
      modifies this, drawTexture.pixels
      ensures Valid() && brushSize == old(brushSize)
      ensures (drawTexture.pixels[..], lastTapTime) ==
        TouchStep(Config(), old(drawTexture.pixels[..]), old(lastTapTime), touch, now, falloff)
    {
      if touch.overUI {
        return;
      }
      if (touch.phase == Moved || touch.phase == Stationary) && touch.hit.Some? {
        DrawAt(touch.hit.value.0, touch.hit.value.1, falloff);
      }
      if touch.phase == Ended {
        Press(now);
      }
    }

    /** `HandleTouchInput` for one frame: every touch not over another UI
        element paints while it moves or rests, and counts as a press when it
        ends. All touches of a frame share the same time `now`. */
    method HandleTouchInput(touches: seq<Touch>, now: real, falloff: real -> real)
      requires Valid()
      modifies this, drawTexture.pixels
      ensures Valid() && brushSize == old(brushSize)
      ensures (drawTexture.pixels[..], lastTapTime) ==
        TouchesEffect(Config(), old(drawTexture.pixels[..]), old(lastTapTime), touches, now, falloff)
    {
      ghost var goal := TouchesEffect(Config(), drawTexture.pixels[..], lastTapTime, touches, now, falloff);
      var n := 0;
      while n < |touches|
        invariant 0 <= n <= |touches|
        invariant Valid() && brushSize == old(brushSize)
        invariant Config() == old(Config())
        invariant TouchesEffect(Config(), drawTexture.pixels[..], lastTapTime, touches[n..], now, falloff) == goal
      {
        assert touches[n..][1..] == touches[n + 1..];
        HandleTouch(touches[n], now, falloff);
        n := n + 1;
      }
    }

    /** `GetResizedForModel`: an `n * n` texture, `n = modelInputSize`, whose
        slot `y * n + x` holds the bilinear sample of the current board at
        `(x / (n - 1), y / (n - 1))`. The engine's `GetPixelBilinear` comes in
        as `sampler`, a function of the board's pixels and the point. */
    method GetResizedForModel(sampler: (seq<Color>, real, real) -> Color) returns (resized: Texture2D)
      requires 2 <= modelInputSize
      ensures resized.Valid() && resized.width == modelInputSize && resized.height == modelInputSize
      ensures resized.pixels[..] == Resampled(BoardSampler(sampler, drawTexture.pixels[..]), modelInputSize)
    {
      var smallPixels := Downsample(modelInputSize, BoardSampler(sampler, drawTexture.pixels[..]));
      resized := new Texture2D(modelInputSize, modelInputSize);
      resized.SetPixels(smallPixels);
    }

    /** `ChangeRadius(value)`: the slider value truncated toward zero. */
    method ChangeRadius(value: real)
      modifies this
      ensures brushSize == TruncToInt(value)
      ensures lastTapTime == old(lastTapTime)
    {
      brushSize := TruncToInt(value);
    }
  }
}
