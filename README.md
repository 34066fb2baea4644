# Unity inference demo — a verified Dafny model of its core

The demo lets a user draw a digit and have a neural network read it, or
point a webcam at a scene and see labelled detection boxes. Around the
engine, the network and the UI, its own logic is a handful of buffer updates
and bounded loops. This project models that logic and proves what it does:

- **`DrawingBoardCanvas`** (module `Canvas`). A UI canvas painted with a hard
  round brush. `DrawCircle` sets every on-texture pixel within `brushSize` of
  the centre to white. `ClearBoard` copies a `width * height` buffer of black
  over the texture.
- **`DrawingBoard`** (module `Board`). A textured quad painted with a soft
  brush.
  - `DrawAt` clamps every target onto the texture and blends each reached
    pixel towards the ink.
  - A double tap (or double click) clears the board.
  - `GetResizedForModel` samples the board into an `n * n` image, row by
    row.
  - `ChangeRadius` sets the brush size from a slider.
- **The engine's `Texture2D`** (module `Texture`). A row-major
  `width * height` pixel array (`Idx(x, y, w) = y * w + x`). Colours are four
  real channels (module `Pixels`), with `Color.Lerp` and `Color.grayscale`.
- **`ModelExecutionMNIST` and `ModelExecutionMNISTCNN`** (modules
  `MnistTensors`, `MnistRunner`, `MnistCnnRunner`).
  - The pixels become a 784-entry grayscale vector, shaped `(1, 28, 28)` or
    `(1, 784)` after the model's input rank.
  - The output's first largest entry is the predicted digit, shown as
    decimal text.
  - `LoadModel` disposes the old worker before starting a new one.
- **`RunYOLOMobile`** (module `Yolo`).
  - The `centersToCorners` matrix of the post-processing graph.
  - The map from model pixels to display coordinates.
  - The 200-box cap and the 0.2 s rate gate.
  - A pool of box panels reused frame after frame.

Engine and plugin code comes in as parameters:
- the Gaussian falloff `exp(-4 q)`;
- `GetPixelBilinear`, as a function of the board's pixels and the sample
  point;
- the network, as a function from the input tensor (shape and data) to the
  output tensor;
- the detector's post-processed output for a frame, as a list of detections.

Clocks, pointer positions, raycast hits and button states are method
parameters.

Some behaviour the model makes visible:
- `HandleTouchInput` gives every touch of a frame the same time. Two fingers
  lifted in the same frame therefore count as a double tap and clear the
  board (`Board.SimultaneousLiftsClear`).
- A clear resets the recorded tap time to 0, not to the current time. So a
  third tap right after a double tap does not clear again, provided the game
  has run for at least `doubleTapTime` (`Board.NoClearRightAfterClear`).
  Within the first `doubleTapTime` of play, every press clears.
- `ModelExecutionMNIST.OnDisable` disposes the worker but leaves
  `modelLoaded` set. The engine calls no `Update` on a disabled component,
  but there is no `OnEnable` to load the model again: once the component is
  enabled again, `Update` reaches a worker that cannot run. The model
  reports this as an inference that does not run.
- In `RunYOLOMobile`, a label index outside `labels` makes `labels[...]`
  throw. The frame then ends early and `Update` does not record the
  inference time. The model carries this as `completed == false`. The
  detector has already run on that frame, yet the rate gate stays open, so
  it runs again on the very next frame (`Yolo.RunYOLOMobile.Update`). The
  0.2 s spacing therefore bounds completed inferences only.

Two places in the source disagree with themselves. The model follows the code
in both:
- The header comment of `RunYOLOMobile.cs` (line 14) speaks of a 320×320
  model input, but the constants `imageWidth` and `imageHeight` (lines 49-50)
  are 640. The model uses 640.
- `ModelExecutionMNIST.Update` (line 48) reads `drawingBoard.IsDrawing`,
  which `DrawingBoard` does not define. The model takes it as the input
  `isDrawing`.

## Model

| member | source | states |
|---|---|---|
| Numerics.TruncToInt | Assets/01_MNIST/DrawingBoard.cs:125-126 | C#'s `(int)` cast of a float truncates toward zero: the result is the integer nearest to the value on the side of zero, at most one unit away |
| Numerics.Clamp | Assets/01_MNIST/DrawingBoard.cs:136-137 | `Mathf.Clamp` lands in `[lo, hi]`: a value below `lo` gives `lo`, a value above `hi` (and not below `lo`) gives `hi`, and a value already in range is returned itself |
| Numerics.Min | Assets/Scripts/RunYOLOMobile.cs:178 | `Mathf.Min` is at most both arguments and equal to one of them |
| Pixels.LerpBetween | Assets/01_MNIST/DrawingBoard.cs:148 | `Color.Lerp(current, drawColor, alpha)` gives a colour whose every channel lies between the old colour's and the ink's, for any alpha (it is clamped to [0, 1]) |
| Pixels.Grayscale | Assets/MNIST/ModelExecutionMNISTCNN.cs:51 | the grayscale of a displayable colour is in [0, 1], and a gray colour (equal channels, e.g. black or white) reads as its channel value |
| Texture.Texture2D.constructor | Assets/01_MNIST/DrawingBoard.cs:25 | `new Texture2D(w, h)` gives a fresh buffer of exactly `w * h` pixels, for the board here and for the resized image at line 173 |
| Texture.Texture2D.GetPixel | Assets/01_MNIST/DrawingBoard.cs:147 | reading pixel (x, y) returns the colour in slot `y * width + x` of the buffer, a slot in range |
| Texture.Texture2D.SetPixel | Assets/Scripts/DrawingBoardCanvas.cs:60 | writing pixel (x, y) changes exactly slot `y * width + x` of the buffer, which is in range |
| Texture.Texture2D.SetPixels | Assets/01_MNIST/DrawingBoard.cs:164 | the whole buffer becomes a copy of the given colours |
| Texture.FilledBuffer | Assets/Scripts/DrawingBoardCanvas.cs:21-23 | the clear buffer has exactly `width * height` entries, each the background colour |
| Canvas.StampSpec | Assets/Scripts/DrawingBoardCanvas.cs:49-63 | after `DrawCircle`, a slot reached by some offset `(x, y)` with `x*x + y*y <= brushSize*brushSize` and `0 <= cx+x < width`, `0 <= cy+y < height` holds the ink; every other slot keeps its colour, so nothing outside the clipped disk is written |
| Canvas.StampPaintsDisk | Assets/Scripts/DrawingBoardCanvas.cs:55-60 | every on-texture pixel within the radius of the centre is ink after the stamp |
| Canvas.StampIdempotent | Assets/Scripts/DrawingBoardCanvas.cs:60 | stamping twice at the same centre gives the same buffer as stamping once |
| Canvas.StampNegativeRadius | Assets/Scripts/DrawingBoardCanvas.cs:51-53 | a negative brush size leaves the buffer unchanged |
| Canvas.PointerToPixel | Assets/Scripts/DrawingBoardCanvas.cs:43-45 | `(int)(local + size / 2)`, with `size / 2` integer division, maps every position inside the rectangle `[-(size/2), size - size/2)` onto a pixel in `[0, size)` |
| Canvas.DrawingBoardCanvas.constructor | Assets/Scripts/DrawingBoardCanvas.cs:18-29 | `Start` builds a `width * height` texture and clear buffer and leaves the whole texture black; the ink is white |
| Canvas.DrawingBoardCanvas.DrawCircle | Assets/Scripts/DrawingBoardCanvas.cs:49-65 | the nested loops leave the buffer equal to the stamp of the old buffer, i.e. each slot is the ink exactly when the clipped disk covers it, and its old colour otherwise |
| Canvas.DrawingBoardCanvas.ClearBoard | Assets/Scripts/DrawingBoardCanvas.cs:67-71 | every pixel becomes the background colour |
| Canvas.DrawingBoardCanvas.Update | Assets/Scripts/DrawingBoardCanvas.cs:31-47 | with the button held and the pointer not over other UI, the buffer becomes the stamp at the pointer's pixel; otherwise it is unchanged |
| Board.Target | Assets/01_MNIST/DrawingBoard.cs:136-137 | the clamped target of every offset is a valid slot of the texture, so `DrawAt` never indexes out of range |
| Board.SoftStampSpec | Assets/01_MNIST/DrawingBoard.cs:123-156 | after `DrawAt`, every channel of every pixel lies between its old value and the ink's, and a pixel that no offset with `i*i + j*j < brushSize*brushSize` clamps onto keeps its colour |
| Board.SoftStampKeepsInk | Assets/01_MNIST/DrawingBoard.cs:147-150 | a pixel that already holds the ink keeps it through `DrawAt`, since blending the ink with itself gives the ink |
| Board.SoftStampPaintsCentre | Assets/01_MNIST/DrawingBoard.cs:129-150 | with brush size at least 1 and the falloff's full weight `exp(0) = 1` at distance 0, the pixel under the brush centre becomes the ink |
| Board.SoftStampNoBrush | Assets/01_MNIST/DrawingBoard.cs:129-143 | with `brushSize <= 0` the strict radius test never passes and `DrawAt` changes nothing |
| Board.QuickSecondTapClears | Assets/01_MNIST/DrawingBoard.cs:60-71 | a press that did not clear followed within `doubleTapTime` by another press makes the second one clear |
| Board.NoClearRightAfterClear | Assets/01_MNIST/DrawingBoard.cs:62-66 | a clear resets the recorded time to 0, so the next press (at time at least `doubleTapTime`) does not clear again |
| Board.SlowTapsNeverClear | Assets/01_MNIST/DrawingBoard.cs:60-71 | presses at least `doubleTapTime` apart never clear the board |
| Board.SimultaneousLiftsClear | Assets/01_MNIST/DrawingBoard.cs:86-115 | two touches ending in the same frame, the first not a double tap, clear the board and reset the recorded time to 0 |
| Board.SampleCoord | Assets/01_MNIST/DrawingBoard.cs:180-181 | the coordinate `x / (n - 1)` lies in [0, 1], is 0 at the first column and 1 at the last |
| Board.ResampledSpec | Assets/01_MNIST/DrawingBoard.cs:173-184 | the resized image has exactly `n * n` slots; pixel (x, y) sits in slot `y * n + x` and holds the bilinear sample at `(x / (n - 1), y / (n - 1))` in the unit square |
| Board.ResampledCovers | Assets/01_MNIST/DrawingBoard.cs:176-182 | every slot `k` is the pixel at column `k % n`, row `k / n`, both below `n` |
| Board.Downsample | Assets/01_MNIST/DrawingBoard.cs:174-184 | the nested loops fill a fresh `n * n` array with exactly the resampled image |
| Board.DrawingBoard.constructor | Assets/01_MNIST/DrawingBoard.cs:23-33 | `Start` builds a `width * height` texture and clear buffer of black and clears the board |
| Board.DrawingBoard.ClearBoard | Assets/01_MNIST/DrawingBoard.cs:162-166 | every pixel becomes the background colour, a copy of the clear buffer |
| Board.DrawingBoard.DrawAt | Assets/01_MNIST/DrawingBoard.cs:123-156 | the nested read-modify-write loops leave the buffer equal to the soft stamp at `((int)(u * width), (int)(v * height))`; every pixel ends between its old colour and the ink and untouched pixels keep their colour; with brush size at least 1 and full weight at distance 0, the centre pixel becomes the ink |
| Board.DrawingBoard.Press | Assets/01_MNIST/DrawingBoard.cs:60-71 | a press within `doubleTapTime` of the recorded time clears the board and records 0; any other press only records its time |
| Board.DrawingBoard.HandleMouseInput | Assets/01_MNIST/DrawingBoard.cs:44-77 | holding over other UI changes nothing (not even the double click or the `C` key); otherwise the frame paints at the hit, then a press applies the double-click rule, then `C` clears |
| Board.DrawingBoard.HandleTouch | Assets/01_MNIST/DrawingBoard.cs:88-115 | a touch over other UI is skipped; a moving or resting touch paints at its hit; an ending touch applies the double-tap rule |
| Board.DrawingBoard.HandleTouchInput | Assets/01_MNIST/DrawingBoard.cs:82-118 | the touches of a frame are handled in order, all at the same time |
| Board.DrawingBoard.GetResizedForModel | Assets/01_MNIST/DrawingBoard.cs:171-189 | the result is an `n * n` texture holding the resampled image of the current board |
| Board.DrawingBoard.ChangeRadius | Assets/01_MNIST/DrawingBoard.cs:191-194 | the brush size becomes the slider value truncated toward zero; the tap record is untouched |
| MnistTensors.ArgMax | Assets/Scripts/ModelExecutionMNIST.cs:85-99 | for an empty tensor the index is 0; otherwise it is in range, no element exceeds the one there, and every element before it is strictly smaller (the first maximum); the copy in `ModelExecutionMNISTCNN.cs` (lines 56-66) is the same scan |
| MnistTensors.PredictionUnique | Assets/Scripts/ModelExecutionMNIST.cs:89-96 | the first-maximum index is unique, so `ArgMax`'s contract determines its result |
| MnistTensors.TextureToInput | Assets/Scripts/ModelExecutionMNIST.cs:76-83 | the array has 784 slots; with at most 784 pixels slot `i` is the grayscale of pixel `i` and 0 beyond, and with more the conversion fails (the source indexes past the array); the copy in `ModelExecutionMNISTCNN.cs` (lines 45-54) is the same conversion |
| MnistTensors.MnistInputRange | Assets/MNIST/ModelExecutionMNISTCNN.cs:51 | the input vector has 784 entries, all in [0, 1] for displayable colours, all 0 for a black drawing |
| MnistTensors.InputTensor | Assets/Scripts/ModelExecutionMNIST.cs:59-62 | the input tensor holds the 784-entry input vector in a shape of rank 3 for a convolutional model and rank 2 otherwise, and the shape holds exactly as many elements as the data, as `new Tensor<float>` demands |
| MnistTensors.ShapeMatchesInput | Assets/Scripts/ModelExecutionMNIST.cs:59-62 | both shapes, `(1, 28, 28)` and `(1, 784)`, hold exactly as many elements as the input vector |
| MnistTensors.DecimalString | Assets/Scripts/ModelExecutionMNIST.cs:70 | `predicted.ToString()` is a non-empty string of decimal digits with no leading zero |
| MnistTensors.DecimalRoundTrip | Assets/Scripts/ModelExecutionMNIST.cs:70 | the label text reads back as the predicted number |
| MnistRunner.ModelExecutionMNIST.constructor | Assets/Scripts/ModelExecutionMNIST.cs:11-15 | before `Start` there is no worker, no model is loaded, and `predicted` is 0 |
| MnistRunner.ModelExecutionMNIST.LoadModel | Assets/Scripts/ModelExecutionMNIST.cs:23-40 | every earlier worker is disposed and a fresh live worker runs the new model, so at most one worker is live; `isCNN` holds exactly when the input rank is at least 3 |
| MnistRunner.ModelExecutionMNIST.RunInference | Assets/Scripts/ModelExecutionMNIST.cs:52-74 | an inference runs exactly when the resized image fits the input and the worker is live; then `predicted` is the first maximum of the network's output on the board's input vector, shaped `(1, 28, 28)` when `isCNN` and `(1, 784)` otherwise, and the text is its decimal string; otherwise both stay as they were |
| MnistRunner.ModelExecutionMNIST.Update | Assets/Scripts/ModelExecutionMNIST.cs:43-50 | inference runs only when a model is loaded and the board is being drawn on, with `RunInference`'s result, on the input shaped after `isCNN` |
| MnistRunner.ModelExecutionMNIST.Disable | Assets/Scripts/ModelExecutionMNIST.cs:101-104 | after `OnDisable` no worker the component created is live |
| MnistCnnRunner.ModelExecutionMNISTCNN.constructor | Assets/MNIST/ModelExecutionMNISTCNN.cs:10-12 | before `Start` there is no worker and `predicted` is 0 |
| MnistCnnRunner.ModelExecutionMNISTCNN.Start | Assets/MNIST/ModelExecutionMNISTCNN.cs:14-18 | a fresh live worker runs the loaded model |
| MnistCnnRunner.ModelExecutionMNISTCNN.Update | Assets/MNIST/ModelExecutionMNISTCNN.cs:20-43 | every frame classifies the board as in `RunInference`: `predicted` is the first maximum of the network's output on the input vector shaped `(1, 28, 28)` |
| MnistCnnRunner.ModelExecutionMNISTCNN.Disable | Assets/MNIST/ModelExecutionMNISTCNN.cs:68-71 | the worker, if any, is disposed |
| Yolo.CentersToCornersSpec | Assets/Scripts/RunYOLOMobile.cs:114-121 | the matrix maps `(cx, cy, w, h)` to `(cx - w/2, cy - h/2, cx + w/2, cy + h/2)`; corners of a box of non-negative size are in order, and the corners give back centre and size |
| Yolo.MatMulRows | Assets/Scripts/RunYOLOMobile.cs:132 | every row of `MatMul(boxCoords, centersToCorners)` is the corner form of the same row of `boxCoords` |
| Yolo.DisplayMapSpec | Assets/Scripts/RunYOLOMobile.cs:171-185 | the model centre (320, 320) maps to display (0, 0), model edges to the display edges `±displayWidth/2`, `±displayHeight/2`; sizes scale by `display / 640`; on a display of non-zero size the map is undone by its inverse |
| Yolo.BoxesDrawn | Assets/Scripts/RunYOLOMobile.cs:177-178 | a frame draws `min(boxesFound, 200)` boxes: never more than 200, all of them when there are at most 200 |
| Yolo.GoodPrefix | Assets/Scripts/RunYOLOMobile.cs:186 | the boxes are drawn in order up to the first whose label index is outside `labels`, at which the frame stops |
| Yolo.PlacedShowsDetection | Assets/Scripts/RunYOLOMobile.cs:180-211 | the panel drawn for a detection is shown, labelled with its caption and a truncated font size; flipping its y position back (`localPosition` is `(centerX, -centerY)`) and mapping display to model pixels gives back the detection, on a display of non-zero size |
| Yolo.OverlaySpec | Assets/Scripts/RunYOLOMobile.cs:178-198 | after a frame the pool is as long as the longer of the old pool and the boxes drawn; exactly the panels below the number drawn are shown, each with its own box; the rest are hidden |
| Yolo.OverlayStep | Assets/Scripts/RunYOLOMobile.cs:195-203 | drawing box `n` reuses panel `n` when the pool has it and appends exactly one panel otherwise |
| Yolo.InferenceSpacing | Assets/Scripts/RunYOLOMobile.cs:143-147 | recorded inference times are at least 0.2 s apart (the first at least 0.2 s after the starting record): at most five completed inferences a second |
| Yolo.RunYOLOMobile.constructor | Assets/Scripts/RunYOLOMobile.cs:60-64 | the pool starts empty and the last inference time at 0 |
| Yolo.RunYOLOMobile.ClearAnnotations | Assets/Scripts/RunYOLOMobile.cs:243-247 | every panel is hidden and the pool keeps its size and contents |
| Yolo.RunYOLOMobile.CreateNewBox | Assets/Scripts/RunYOLOMobile.cs:214-241 | exactly one new, shown panel is appended to the pool |
| Yolo.RunYOLOMobile.DrawBox | Assets/Scripts/RunYOLOMobile.cs:192-212 | with `id` below the pool size that panel is replaced by the placed box; otherwise the placed box is appended; nothing else changes |
| Yolo.RunYOLOMobile.ExecuteML | Assets/Scripts/RunYOLOMobile.cs:153-190 | all panels are hidden; without a new frame that is all; otherwise the pool becomes the overlay of the placed boxes for the first `min(boxesFound, 200)` detections up to the first missing label, the frame completes exactly when there is none, and the pool never exceeds 200 panels |
| Yolo.RunYOLOMobile.Update | Assets/Scripts/RunYOLOMobile.cs:140-151 | inference runs exactly when at least 0.2 s have passed since the last recorded one; a completed inference records the current time, anything else leaves the record and (when not run) the pool unchanged; when it runs, the pool is as `ExecuteML` leaves it: all panels hidden, then (with a new frame) the boxes drawn up to the first bad label, and the inference completes exactly when there is none |

## Left out

- Colours and tensor values are exact reals. Single-precision rounding is not modelled. Tensor values are finite; infinities and NaN are not modelled.
- Texture.Texture2D.SetPixel: the textures are `RGBA32`, so the engine stores each channel as 8 bits, clamped to [0, 1] and rounded to a multiple of 1/255, and `GetPixel` in `DrawAt` reads that rounded value back. The buffer here keeps exact reals, so it can differ from the engine's (a small blend towards white may leave an engine pixel unchanged). The `Between` results still hold there: black and white are stored exactly, and rounding cannot leave the range between them.
- Integer arithmetic is unbounded. 32-bit overflow of `x * x + y * y`, `width * height` or `(int)` casts of huge floats is not modelled.
- Board.SoftStampSpec: the Gaussian falloff `Mathf.Exp` and `Mathf.Sqrt` are not computed. The falloff is an uninterpreted function. The radius test `sqrt(i*i + j*j) < brushRadius` is taken as `i*i + j*j < brushRadius^2` over the integers, which is exact over the reals. No claim is made that the intensity falls off with distance.
- `Mathf.RoundToInt(brushSize)` of an integer is the integer itself; the model uses `brushSize` directly.
- Engine and GPU calls have no effect on the modelled buffers and are left out: `Texture2D.Apply`, `GetComponent`, the renderer and material assignment.
- The engine's `GetPixelBilinear` is a parameter. `Graphics.ConvertTexture` is not modelled, and neither is the `GetResizedForModel` of `DrawingBoardCanvas`, which only calls it.
- Board.DrawingBoard.GetResizedForModel: `modelInputSize` of 0 or 1 is excluded. 1 divides by zero in the sampling coordinate, and 0 asks the engine for an empty texture.
- Input handling is a set of method parameters: mouse and touch polling, `EventSystem` UI hits, raycasts, and `RectTransformUtility`.
- `DrawingBoard.Update` only calls `HandleMouseInput` and then `HandleTouchInput`. Both are modelled; the two-line composition is not.
- The inference plugin is not modelled: `ModelLoader.Load`, the functional graph, `Functional.NMS`, `ReduceMax`, `ArgMax`, `IndexSelect`, `Worker.Schedule`, `PeekOutput`, `ReadbackAndClone` and tensor disposal. A model is a pair of an input rank and a function from the input tensor (shape and data) to the output. A YOLO frame's post-processed output is a list of detections.
- The network is an arbitrary function of its input tensor, shape included. What a real network computes from a shape is not modelled.
- `RunYOLOMobile.Start` and `OnDestroy` are not modelled: the webcam device setup, `Graphics.Blit`, `TextureConverter.ToTensor`, the sprite, `Application.targetFrameRate`, `Application.Quit` and the backend selection. Whether a new camera frame is available comes in as `frameReady`. The class labels come in already split.
- Yolo.RunYOLOMobile.CreateNewBox: a panel is its `active` flag, position, size, label text and font size. The `GameObject`, `Image`, `Text` and `RectTransform` construction and styling are left out.
- The debug log lines and the `predicted` field's inspector display are left out.
