/** Integer helpers shared by the drawing boards and the detectors: C#'s
    float-to-int cast, Unity's `Mathf.Clamp` and `Mathf.Min` on ints, and the
    row-major pixel index that `Texture2D.GetPixels`/`SetPixels` use. */
module Numerics {

  /** `(int)v` for a float `v` in C#: truncation toward zero. */
  function TruncToInt(v: real): (n: int)
    ensures 0.0 <= v ==> n as real <= v < n as real + 1.0
    ensures v < 0.0 ==> n as real - 1.0 < v <= n as real
  {
    if v >= 0.0 then v.Floor else -((-v).Floor)
  }

  /** `Mathf.Clamp(int value, int min, int max)`: below `lo` gives `lo`,
      otherwise above `hi` gives `hi`, otherwise the value itself. */
  function Clamp(v: int, lo: int, hi: int): (c: int)
    ensures lo <= hi ==> lo <= c <= hi
    ensures lo <= v <= hi ==> c == v
    ensures v < lo ==> c == lo
    ensures lo <= v && hi < v ==> c == hi
  {
    if v < lo then lo else if v > hi then hi else v
  }

  /** `Mathf.Min(int a, int b)`. */
  function Min(a: int, b: int): (m: int)
    ensures m <= a && m <= b
    ensures m == a || m == b
  {
    if a < b then a else b
  }

  function Max(a: int, b: int): (m: int)
    ensures m >= a && m >= b
    ensures m == a || m == b
  {
    if a < b then b else a
  }

  /** Position of pixel (x, y) in a flat row-major buffer of rows `w` wide. */
  function Idx(x: int, y: int, w: int): int
  {
    y * w + x
  }

  lemma IdxInRange(x: int, y: int, w: int, h: int)
    requires 0 <= x < w && 0 <= y < h
    ensures 0 <= Idx(x, y, w) < w * h
  {
    assert y * w >= 0;
    assert y * w + w == (y + 1) * w;
    assert (y + 1) * w <= h * w;
  }

  /** `a * c` grows with `a` once `a >= 1`. */
  lemma MulAtLeast(a: int, c: int)
    requires 1 <= a && 0 <= c
    ensures c <= a * c
  {
    assert a * c - c == (a - 1) * c;
  }

  /** An offset both brush loops visit: each coordinate runs from `-r` to `r`. */
  predicate InSquare(x: int, y: int, r: int)
  {
    -r <= x <= r && -r <= y <= r
  }

  /** The flat index decodes back into its column and row. */
  lemma IdxDecode(x: int, y: int, w: int)
    requires 0 <= x < w && 0 <= y
    ensures Idx(x, y, w) % w == x && Idx(x, y, w) / w == y
  {
    var k := y * w + x;
    var q, m := k / w, k % w;
    assert k == q * w + m;
    assert 0 <= m < w;
    assert (y - q) * w == m - x;
    if y > q {
      MulAtLeast(y - q, w);
    } else if y < q {
      MulAtLeast(q - y, w);
    }
    assert y == q;
  }

  /** Every flat index is the index of exactly its own column and row. */
  lemma IdxCover(k: int, w: int, h: int)
    requires 0 <= k < w * h && 0 < w
    ensures 0 <= k % w < w && 0 <= k / w < h
    ensures Idx(k % w, k / w, w) == k
  {
    var q, m := k / w, k % w;
    assert k == q * w + m;
    assert 0 <= m < w;
    if q < 0 {
      MulAtLeast(-q, w);
    } else if q >= h {
      MulAtLeast(q - h + 1, w);
    }
  }
}
