/** `RunYOLOMobile`: a webcam object detector. At most five times a second
    (counting inferences that complete) it runs the detector on the latest
    camera frame and shows each detection as
    a labelled box drawn over the camera image, reusing a pool of box
    panels that grows only when a frame has more boxes than ever before.
    The network, its post-processing graph and non-maximum suppression are
    engine code; their result for a frame comes in as a list of detections. */
module Yolo {
  import opened Numerics

  /** The model input size, `imageWidth` and `imageHeight`. */
  const ImageWidth: int := 640
  const ImageHeight: int := 640

  /** The per-frame cap on drawn boxes. */
  const MaxBoxes: int := 200

  /** `inferenceInterval`, seconds between inferences. */
  const InferenceInterval: real := 0.2

  /** Label font size as a fraction of the display height. */
  const FontFraction: real := 0.05

  /** Font size a freshly created label starts with. */
  const NewLabelFontSize: int := 40

  // ---------------------------------------------------------------------
  // The centers-to-corners matrix of the post-processing graph
  // ---------------------------------------------------------------------

  /** `centersToCorners`, the 4 x 4 matrix, row by row. */
  const CentersToCorners: seq<seq<real>> :=
    [[1.0, 0.0, 1.0, 0.0],
     [0.0, 1.0, 0.0, 1.0],
     [-0.5, 0.0, 0.5, 0.0],
     [0.0, -0.5, 0.0, 0.5]]

  predicate Is4x4(m: seq<seq<real>>)
  {
    |m| == 4 && forall k :: 0 <= k < 4 ==> |m[k]| == 4
  }

  /** The row vector `v` times the matrix `m`. */
  function RowTimes(v: seq<real>, m: seq<seq<real>>): seq<real>
    requires |v| == 4 && Is4x4(m)
  {
    seq(4, j requires 0 <= j < 4 =>
      v[0] * m[0][j] + v[1] * m[1][j] + v[2] * m[2][j] + v[3] * m[3][j])
  }

  /** `MatMul(boxCoords, centersToCorners)`: each `(cx, cy, w, h)` row times the matrix. */
  function MatMul(rows: seq<seq<real>>, m: seq<seq<real>>): seq<seq<real>>
    requires Is4x4(m) && forall i :: 0 <= i < |rows| ==> |rows[i]| == 4
  {
    seq(|rows|, i requires 0 <= i < |rows| => RowTimes(rows[i], m))
  }

  /** The inverse map, from corners back to centre and size. */
  function CornersToCenters(c: seq<real>): (v: seq<real>)
    requires |c| == 4
  {
    [(c[0] + c[2]) / 2.0, (c[1] + c[3]) / 2.0, c[2] - c[0], c[3] - c[1]]
  }

  /** The matrix turns a box given by centre and size into its corners
      `(x1, y1, x2, y2)`; a box of non-negative size has its corners in
      order; and the corners give back the centre and size. */
  lemma CentersToCornersSpec(cx: real, cy: real, w: real, h: real)
    ensures Is4x4(CentersToCorners)
    ensures RowTimes([cx, cy, w, h], CentersToCorners) == [cx - w / 2.0, cy - h / 2.0, cx + w / 2.0, cy + h / 2.0]
    ensures 0.0 <= w && 0.0 <= h ==>
      var c := RowTimes([cx, cy, w, h], CentersToCorners); c[0] <= c[2] && c[1] <= c[3]
    ensures CornersToCenters(RowTimes([cx, cy, w, h], CentersToCorners)) == [cx, cy, w, h]
  {
    var c := RowTimes([cx, cy, w, h], CentersToCorners);
    assert c[0] == cx - w / 2.0;
    assert c[1] == cy - h / 2.0;
    assert c[2] == cx + w / 2.0;
    assert c[3] == cy + h / 2.0;
  }

  /** Every row of the graph's `boxCorners` is the corner form of the same
      row of `boxCoords`. */
  lemma MatMulRows(rows: seq<seq<real>>, i: int)
    requires forall k :: 0 <= k < |rows| ==> |rows[k]| == 4
    requires 0 <= i < |rows|
    ensures Is4x4(CentersToCorners)
    ensures var r := rows[i];
      MatMul(rows, CentersToCorners)[i] == [r[0] - r[2] / 2.0, r[1] - r[3] / 2.0, r[0] + r[2] / 2.0, r[1] + r[3] / 2.0]
  {
    var r := rows[i];
    assert r == [r[0], r[1], r[2], r[3]];
    CentersToCornersSpec(r[0], r[1], r[2], r[3]);
  }

  // ---------------------------------------------------------------------
  // From model output to display boxes
  // ---------------------------------------------------------------------

  /** `BoundingBox`: a box in display coordinates, origin at the display centre. */
  datatype BoundingBox = BoundingBox(centerX: real, centerY: real, width: real, height: real, labelText: string)

  /** One row of the post-processed output: box centre and size in model
      pixels, and the index of its class label. */
  datatype Detection = Detection(x: real, y: real, w: real, h: real, labelId: int)

  /** One axis of the box map: a model coordinate scaled by `dim / side`
      and shifted so the display centre is 0. */
  function AxisPos(v: real, dim: real, side: int): real
    requires side != 0
  {
    v * (dim / side as real) - dim / 2.0
  }

  /** One axis of a box size, scaled by `dim / side`. */
  function AxisSize(v: real, dim: real, side: int): real
    requires side != 0
  {
    v * (dim / side as real)
  }

  /** The box `ExecuteML` builds for a detection: model pixels scaled by
      `displayWidth / imageWidth` and `displayHeight / imageHeight`, then
      shifted so the display centre is the origin. */
  function ToDisplay(d: Detection, caption: string, displayWidth: real, displayHeight: real): BoundingBox
  {
    BoundingBox(AxisPos(d.x, displayWidth, ImageWidth), AxisPos(d.y, displayHeight, ImageHeight),
                AxisSize(d.w, displayWidth, ImageWidth), AxisSize(d.h, displayHeight, ImageHeight), caption)
  }

  /** Back from display to model pixels along one axis, for a display of non-zero size. */
  function AxisPosBack(c: real, dim: real, side: int): real
    requires side != 0 && dim != 0.0
  {
    (c + dim / 2.0) / (dim / side as real)
  }

  function AxisSizeBack(c: real, dim: real, side: int): real
    requires side != 0 && dim != 0.0
  {
    c / (dim / side as real)
  }

  /** Back from display to model pixels, for a display of non-zero size. */
  function FromDisplay(b: BoundingBox, labelId: int, displayWidth: real, displayHeight: real): Detection
    requires displayWidth != 0.0 && displayHeight != 0.0
  {
    Detection(AxisPosBack(b.centerX, displayWidth, ImageWidth), AxisPosBack(b.centerY, displayHeight, ImageHeight),
              AxisSizeBack(b.width, displayWidth, ImageWidth), AxisSizeBack(b.height, displayHeight, ImageHeight), labelId)
  }

  /** The model's centre lands on the display's centre, its edges on the
      display's edges, sizes scale by the same factor, and on a display of
      non-zero size the map is undone by `FromDisplay`. */
  lemma DisplayMapSpec(d: Detection, caption: string, displayWidth: real, displayHeight: real)
    ensures var b := ToDisplay(d, caption, displayWidth, displayHeight);
      (d.x == ImageWidth as real / 2.0 ==> b.centerX == 0.0) &&
      (d.y == ImageHeight as real / 2.0 ==> b.centerY == 0.0) &&
      (d.x == 0.0 ==> b.centerX == -displayWidth / 2.0) &&
      (d.x == ImageWidth as real ==> b.centerX == displayWidth / 2.0) &&
      (d.y == 0.0 ==> b.centerY == -displayHeight / 2.0) &&
      (d.y == ImageHeight as real ==> b.centerY == displayHeight / 2.0) &&
      b.width == d.w * (displayWidth / ImageWidth as real) &&
      b.height == d.h * (displayHeight / ImageHeight as real) &&
      b.labelText == caption
    ensures displayWidth != 0.0 && displayHeight != 0.0 ==>
      FromDisplay(ToDisplay(d, caption, displayWidth, displayHeight), d.labelId, displayWidth, displayHeight) == d
  {
    AxisMap(d.x, d.w, displayWidth, ImageWidth);
    AxisMap(d.y, d.h, displayHeight, ImageHeight);
  }

  /** One axis of the display map, for a model side of 640 pixels. */
  lemma AxisMap(v: real, size: real, dim: real, side: int)
    requires side == 640
    ensures v == 320.0 ==> AxisPos(v, dim, side) == 0.0
    ensures v == 0.0 ==> AxisPos(v, dim, side) == -dim / 2.0
    ensures v == 640.0 ==> AxisPos(v, dim, side) == dim / 2.0
    ensures AxisSize(size, dim, side) == size * (dim / side as real)
    ensures dim != 0.0 ==>
      AxisPosBack(AxisPos(v, dim, side), dim, side) == v && AxisSizeBack(AxisSize(size, dim, side), dim, side) == size
  {
    var s := dim / 640.0;
    if dim != 0.0 {
      assert s != 0.0;
      assert AxisPos(v, dim, side) + dim / 2.0 == v * s;
      MulDiv(v, s);
      MulDiv(size, s);
    }
  }

  lemma MulDiv(a: real, s: real)
    requires s != 0.0
    ensures a * s / s == a
  {
  }

  /** `Mathf.Min(boxesFound, 200)`: how many boxes a frame draws. */
  function BoxesDrawn(boxesFound: int): (k: int)
    ensures k <= MaxBoxes
    ensures k == boxesFound || k == MaxBoxes
    ensures boxesFound <= MaxBoxes ==> k == boxesFound
    ensures 0 <= boxesFound ==> 0 <= k
  {
    Min(boxesFound, MaxBoxes)
  }

  /** How many of the leading detections name a label that exists: the
      frame's boxes are drawn in order until the first that does not. */
  function GoodPrefix(ds: seq<Detection>, labelCount: int): (k: nat)
    ensures k <= |ds|
    ensures forall i :: 0 <= i < k ==> 0 <= ds[i].labelId < labelCount
    ensures k < |ds| ==> !(0 <= ds[k].labelId < labelCount)
    decreases |ds|
  {
    if ds == [] || !(0 <= ds[0].labelId < labelCount) then 0
    else 1 + GoodPrefix(ds[1..], labelCount)
  }

  /** `GoodPrefix` is the first position whose label does not exist. */
  lemma GoodPrefixAt(ds: seq<Detection>, labelCount: int, n: int)
    requires 0 <= n <= |ds|
    requires forall i :: 0 <= i < n ==> 0 <= ds[i].labelId < labelCount
    ensures n <= GoodPrefix(ds, labelCount)
    ensures n < |ds| && !(0 <= ds[n].labelId < labelCount) ==> GoodPrefix(ds, labelCount) == n
  {
  }

  // ---------------------------------------------------------------------
  // The box pool
  // ---------------------------------------------------------------------

  /** A pooled box panel: whether it is shown, its position and size in the
      display, and its label's text and font size. */
  datatype PoolEntry = PoolEntry(active: bool, x: real, y: real, width: real, height: real,
                                 text: string, fontSize: int)

  /** A panel as `CreateNewBox` makes it: shown, at the origin, with an
      empty label of the initial font size. */
  const NewPanel: PoolEntry := PoolEntry(true, 0.0, 0.0, 0.0, 0.0, "", NewLabelFontSize)

  /** The panel `DrawBox` leaves for `box`: shown, at `(centerX, -centerY)`
      (the display's y axis points up), sized and labelled, the font size
      truncated to an integer. */
  function Placed(box: BoundingBox, fontSize: real): PoolEntry
  {
    PoolEntry(true, box.centerX, -box.centerY, box.width, box.height, box.labelText, TruncToInt(fontSize))
  }

  /** The panel shown for a detection gives the detection back: flipping
      its y position again and mapping display to model pixels recovers the
      detection's box, and its text is the caption. */
  lemma PlacedShowsDetection(d: Detection, caption: string, displayWidth: real, displayHeight: real, fontSize: real)
    requires displayWidth != 0.0 && displayHeight != 0.0
    ensures var e := Placed(ToDisplay(d, caption, displayWidth, displayHeight), fontSize);
      e.active && e.text == caption && e.fontSize == TruncToInt(fontSize) &&
      FromDisplay(BoundingBox(e.x, -e.y, e.width, e.height, e.text), d.labelId, displayWidth, displayHeight) == d
  {
    DisplayMapSpec(d, caption, displayWidth, displayHeight);
  }

  /** The pool after `ClearAnnotations`: every panel hidden. */
  function Hidden(pool: seq<PoolEntry>): (p: seq<PoolEntry>)
  {
    seq(|pool|, i requires 0 <= i < |pool| => pool[i].(active := false))
  }

  /** The pool after a frame drew `placed` over the hidden pool `cleared`,
      panel `n` for box `n`. */
  function Overlay(cleared: seq<PoolEntry>, placed: seq<PoolEntry>): seq<PoolEntry>
  {
    seq(Max(|cleared|, |placed|), i requires 0 <= i < Max(|cleared|, |placed|) =>
      if i < |placed| then placed[i] else cleared[i])
  }

  /** The panels a frame draws for the detections `ds`, all of whose labels exist. */
  function Placements(ds: seq<Detection>, labels: seq<string>, displayWidth: real, displayHeight: real): seq<PoolEntry>
    requires forall i :: 0 <= i < |ds| ==> 0 <= ds[i].labelId < |labels|
  {
    seq(|ds|, i requires 0 <= i < |ds| =>
      Placed(ToDisplay(ds[i], labels[ds[i].labelId], displayWidth, displayHeight), displayHeight * FontFraction))
  }

  /** After a frame the pool is as long as the longer of the old pool and
      the frame's boxes; exactly the panels below the number of boxes drawn
      are shown, each with its own box; the others keep their contents,
      hidden. */
  lemma OverlaySpec(pool: seq<PoolEntry>, placed: seq<PoolEntry>)
    requires forall i :: 0 <= i < |placed| ==> placed[i].active
    ensures |Overlay(Hidden(pool), placed)| == Max(|pool|, |placed|)
    ensures forall i :: 0 <= i < Max(|pool|, |placed|) ==>
      (Overlay(Hidden(pool), placed)[i].active <==> i < |placed|)
    ensures forall i :: 0 <= i < |placed| ==> Overlay(Hidden(pool), placed)[i] == placed[i]
    ensures forall i :: |placed| <= i < |pool| ==> Overlay(Hidden(pool), placed)[i] == pool[i].(active := false)
  {
  }

  /** Drawing box `|placed|` next: it replaces that panel when the pool
      already has one, and is appended otherwise. */
  lemma OverlayStep(cleared: seq<PoolEntry>, placed: seq<PoolEntry>, e: PoolEntry)
    ensures |placed| < |Overlay(cleared, placed)| ==>
      Overlay(cleared, placed + [e]) == Overlay(cleared, placed)[|placed| := e]
    ensures |placed| >= |Overlay(cleared, placed)| ==>
      Overlay(cleared, placed + [e]) == Overlay(cleared, placed) + [e]
  {
    var before := Overlay(cleared, placed);
    var after := Overlay(cleared, placed + [e]);
    if |placed| < |before| {
      assert |after| == |before|;
      forall i | 0 <= i < |after|
        ensures after[i] == before[|placed| := e][i]
      {
      }
    } else {
      assert |after| == |before| + 1;
      forall i | 0 <= i < |after|
        ensures after[i] == (before + [e])[i]
      {
      }
    }
  }

  lemma PlacementsStep(ds: seq<Detection>, labels: seq<string>, displayWidth: real, displayHeight: real, n: int)
    requires 0 <= n < |ds|
    requires forall i :: 0 <= i <= n ==> 0 <= ds[i].labelId < |labels|
    ensures Placements(ds[..n + 1], labels, displayWidth, displayHeight) ==
      Placements(ds[..n], labels, displayWidth, displayHeight) +
      [Placed(ToDisplay(ds[n], labels[ds[n].labelId], displayWidth, displayHeight), displayHeight * FontFraction)]
  {
  }

  // ---------------------------------------------------------------------
  // The rate gate
  // ---------------------------------------------------------------------

  /** `Update`'s test: at least `inferenceInterval` seconds since the last inference. */
  predicate Due(lastInferenceTime: real, now: real)
  {
    now - lastInferenceTime >= InferenceInterval
  }

  /** A frame as `Update` sees it: the clock, and whether `ExecuteML` would
      finish (rather than stop at a missing label). */
  datatype Frame = Frame(time: real, completes: bool)

  /** The times at which inferences finish over a run of frames, starting
      from `last`: a frame that is due and completes records its time. */
  function InferenceTimes(last: real, frames: seq<Frame>): seq<real>
    decreases |frames|
  {
    if frames == [] then []
    else if Due(last, frames[0].time) && frames[0].completes then
      [frames[0].time] + InferenceTimes(frames[0].time, frames[1..])
    else InferenceTimes(last, frames[1..])
  }

  /** Finished inferences are at least `inferenceInterval` apart, and the
      first is at least that long after `last`: at most five finished
      inferences a second. */
  lemma {:induction false} InferenceSpacing(last: real, frames: seq<Frame>)
    ensures var ts := InferenceTimes(last, frames);
      (|ts| > 0 ==> ts[0] >= last + InferenceInterval) &&
      forall i :: 0 <= i < |ts| - 1 ==> ts[i + 1] >= ts[i] + InferenceInterval
    decreases |frames|
  {
    if frames != [] {
      var f := frames[0];
      if Due(last, f.time) && f.completes {
        InferenceSpacing(f.time, frames[1..]);
        var rest := InferenceTimes(f.time, frames[1..]);
        var ts := InferenceTimes(last, frames);
        assert ts == [f.time] + rest;
        forall i | 0 <= i < |ts| - 1
          ensures ts[i + 1] >= ts[i] + InferenceInterval
        {
          if i > 0 {
            assert ts[i] == rest[i - 1] && ts[i + 1] == rest[i];
          }
        }
      } else {
        InferenceSpacing(last, frames[1..]);
      }
    }
  }

  class RunYOLOMobile {
    /** `labels`, the lines of the classes file. */
    const labels: seq<string>
    var boxPool: seq<PoolEntry>
    var lastInferenceTime: real

    /** The pool never holds more panels than one frame can draw. */
    ghost predicate Valid()
      reads this
    {
      |boxPool| <= MaxBoxes
    }

    /** The component after `Start`: labels loaded, no panels, no inference yet. */
    constructor (classes: seq<string>)
      ensures Valid() && labels == classes && boxPool == [] && lastInferenceTime == 0.0
    {
      labels := classes;
      boxPool := [];
      lastInferenceTime := 0.0;
    }

    /** `ClearAnnotations`: hide every panel, one at a time. */
    method ClearAnnotations()
      requires Valid()
      modifies this
      ensures Valid() && boxPool == Hidden(old(boxPool))
      ensures lastInferenceTime == old(lastInferenceTime)
    {
      var i := 0;
      while i < |boxPool|
        invariant 0 <= i <= |boxPool| == |old(boxPool)|
        invariant lastInferenceTime == old(lastInferenceTime)
        invariant forall k :: 0 <= k < i ==> boxPool[k] == old(boxPool)[k].(active := false)
        invariant forall k :: i <= k < |boxPool| ==> boxPool[k] == old(boxPool)[k]
      {
        boxPool := boxPool[i := boxPool[i].(active := false)];
        i := i + 1;
      }
    }

    /** `CreateNewBox`: a new panel appended to the pool; its index is returned. */
    method CreateNewBox() returns (id: int)
      modifies this
      ensures boxPool == old(boxPool) + [NewPanel] && id == |old(boxPool)|
      ensures lastInferenceTime == old(lastInferenceTime)
    {
      id := |boxPool|;
      boxPool := boxPool + [NewPanel];
    }

    /** `DrawBox(box, id, fontSize)`: reuse panel `id` when the pool has it,
        otherwise create one at the end of the pool; then place it. */
    method DrawBox(box: BoundingBox, id: int, fontSize: real)
      requires 0 <= id
      modifies this
      ensures id < |old(boxPool)| ==> boxPool == old(boxPool)[id := Placed(box, fontSize)]
      ensures id >= |old(boxPool)| ==> boxPool == old(boxPool) + [Placed(box, fontSize)]
      ensures lastInferenceTime == old(lastInferenceTime)
    {
      var panel := id;
      if id < |boxPool| {
        boxPool := boxPool[id := boxPool[id].(active := true)];
      } else {
        panel := CreateNewBox();
      }
      boxPool := boxPool[panel := Placed(box, fontSize)];
    }

    /** `ExecuteML`: hide all panels; without a new camera frame stop there.
        Otherwise draw the first `min(boxesFound, 200)` detections in order,
        panel `n` for detection `n`. A detection whose label index is out of
        range raises, ending the frame early: `completed` is false then. */
    method ExecuteML(frameReady: bool, detections: seq<Detection>, displayWidth: real, displayHeight: real)
      returns (completed: bool)
      requires Valid()
      modifies this
      ensures Valid() && lastInferenceTime == old(lastInferenceTime)
      ensures !frameReady ==> completed && boxPool == Hidden(old(boxPool))
      ensures frameReady ==>
        var drawn := detections[..BoxesDrawn(|detections|)];
        var good := GoodPrefix(drawn, |labels|);
        (completed <==> good == |drawn|) &&
        boxPool == Overlay(Hidden(old(boxPool)), Placements(drawn[..good], labels, displayWidth, displayHeight))
    {
      ClearAnnotations();
      ghost var cleared := boxPool;
      if !frameReady {
        return true;
      }
      var count := BoxesDrawn(|detections|);
      ghost var drawn := detections[..count];
      var n := 0;
      while n < count
        invariant 0 <= n <= count && |boxPool| <= MaxBoxes
        invariant lastInferenceTime == old(lastInferenceTime)
        invariant forall i :: 0 <= i < n ==> 0 <= drawn[i].labelId < |labels|
        invariant boxPool == Overlay(cleared, Placements(drawn[..n], labels, displayWidth, displayHeight))
      {
        var det := detections[n];
        if !(0 <= det.labelId < |labels|) {
          GoodPrefixAt(drawn, |labels|, n);
          return false;
        }
        var box := ToDisplay(det, labels[det.labelId], displayWidth, displayHeight);
        ghost var placed := Placements(drawn[..n], labels, displayWidth, displayHeight);
        OverlayStep(cleared, placed, Placed(box, displayHeight * FontFraction));
        PlacementsStep(drawn, labels, displayWidth, displayHeight, n);
        DrawBox(box, n, displayHeight * FontFraction);
        n := n + 1;
      }
      GoodPrefixAt(drawn, |labels|, n);
      assert drawn[..n] == drawn;
      completed := true;
    }

    /** `Update`: when at least `inferenceInterval` has passed since the last
        inference, run `ExecuteML` and record the time; an inference that
        raises leaves the recorded time as it was. */
    method Update(now: real, frameReady: bool, detections: seq<Detection>, displayWidth: real, displayHeight: real)
      returns (ran: bool, completed: bool)
      requires Valid()
      modifies this
      ensures Valid()
      ensures ran <==> Due(old(lastInferenceTime), now)
      ensures !ran ==> boxPool == old(boxPool) && lastInferenceTime == old(lastInferenceTime) && completed
      ensures lastInferenceTime == (if ran && completed then now else old(lastInferenceTime))
      ensures ran && completed ==> lastInferenceTime >= old(lastInferenceTime) + InferenceInterval
      ensures ran && !frameReady ==> completed && boxPool == Hidden(old(boxPool))
      ensures ran && frameReady ==>
        var drawn := detections[..BoxesDrawn(|detections|)];
        var good := GoodPrefix(drawn, |labels|);
        (completed <==> good == |drawn|) &&
        boxPool == Overlay(Hidden(old(boxPool)), Placements(drawn[..good], labels, displayWidth, displayHeight))
    {
      ran := Due(lastInferenceTime, now);
      completed := true;
      if ran {
        completed := ExecuteML(frameReady, detections, displayWidth, displayHeight);
        if completed {
          lastInferenceTime := now;
        }
      }
    }
  }
}
