/** `ModelExecutionMNIST`: loads a digit classifier, finds out from the
    model's input rank whether it wants a 28 x 28 image or a flat vector of
    784, and while the user draws classifies the board's resized image every
    frame, showing the digit as text. */
module MnistRunner {
  import opened Pixels
  import opened MnistTensors
  import opened Board

  class ModelExecutionMNIST {
    const drawingBoard: DrawingBoard
    var worker: Worker?
    var isCNN: bool
    var modelLoaded: bool
    var predicted: int
    var predictedText: string
    /** Every worker this component has created. */
    ghost var workers: set<Worker>

    /** At most one created worker is live, and it is the current one; once a
        model has been loaded there is a current worker. */
    ghost predicate Valid()
      reads this, workers
    {
      (worker != null ==> worker in workers) &&
      (forall w :: w in workers && w.live ==> w == worker) &&
      (modelLoaded ==> worker != null)
    }

    /** The component as the scene creates it, before `Start`. */
    constructor (board: DrawingBoard)
      ensures Valid() && drawingBoard == board
      ensures worker == null && !modelLoaded && workers == {}
      ensures predicted == 0 && predictedText == ""
    {
      drawingBoard := board;
      worker := null;
      isCNN := false;
      modelLoaded := false;
      predicted := 0;
      predictedText := "";
      workers := {};
    }

    /** `LoadModel` (also what `Start` does): dispose the current worker,
        start a new one on `model`, and treat the model as convolutional
        exactly when its input has rank 3 or more. */
    method LoadModel(model: Model)
      requires Valid()
      modifies this, workers
      ensures Valid() && modelLoaded
      ensures worker != null && fresh(worker) && worker.live && worker.model == model
      ensures isCNN <==> model.inputRank >= 3
      ensures workers == old(workers) + {worker}
      ensures forall w :: w in old(workers) ==> !w.live
      ensures predicted == old(predicted) && predictedText == old(predictedText)
    {
      if worker != null {
        worker.Dispose();
      }
      var w := new Worker(model);
      worker := w;
      workers := workers + {w};
      modelLoaded := true;
      isCNN := model.inputRank >= 3;
    }

    /** `RunInference`: resize the board, convert it to the input vector,
        wrap it in the shape the model wants, run the worker and show the
        first largest output. The conversion fails for a resized image of
        more than 784 pixels and a disposed worker cannot run; either way
        the shown digit stays as it was. */
    method RunInference(sampler: (seq<Color>, real, real) -> Color) returns (ran: bool)
      requires Valid() && modelLoaded && 2 <= drawingBoard.modelInputSize
      modifies this
      ensures Valid() && worker == old(worker) && workers == old(workers)
      ensures modelLoaded && isCNN == old(isCNN)
      ensures var n := drawingBoard.modelInputSize;
        ran <==> n * n <= InputLength && worker.live
      ensures var n := drawingBoard.modelInputSize;
        ran ==> (n * n <= InputLength &&
          IsPrediction(worker.model.run(InputTensor(isCNN, Resampled(BoardSampler(sampler, drawingBoard.drawTexture.pixels[..]), n))), predicted))
      ensures ran ==> 0 <= predicted && predictedText == DecimalString(predicted)
      ensures !ran ==> predicted == old(predicted) && predictedText == old(predictedText)
    {
      var drawn := drawingBoard.GetResizedForModel(sampler);
      var ok, inputData := TextureToInput(drawn.pixels[..]);
      if !ok {
        return false;
      }
      var input := Tensor(InputShape(isCNN), inputData[..]);
      assert input == InputTensor(isCNN, drawn.pixels[..]) && WellShaped(input);
      if !worker.live {
        return false;
      }
      var output := worker.model.run(input);
      var p := ArgMax(output);
      predicted := p;
      predictedText := DecimalString(p);
      ran := true;
    }

    /** `Update`: nothing before a model is loaded or while the user is not
        drawing; otherwise one inference. Whether the board is being drawn
        on comes in as `isDrawing`. */
    method Update(isDrawing: bool, sampler: (seq<Color>, real, real) -> Color) returns (ran: bool)
      requires Valid() && 2 <= drawingBoard.modelInputSize
      modifies this
      ensures Valid() && worker == old(worker) && workers == old(workers)
      ensures modelLoaded == old(modelLoaded) && isCNN == old(isCNN)
      ensures var n := drawingBoard.modelInputSize;
        ran <==> modelLoaded && isDrawing && n * n <= InputLength && worker != null && worker.live
      ensures var n := drawingBoard.modelInputSize;
        ran ==> (n * n <= InputLength && worker != null &&
          IsPrediction(worker.model.run(InputTensor(isCNN, Resampled(BoardSampler(sampler, drawingBoard.drawTexture.pixels[..]), n))), predicted))
      ensures ran ==> 0 <= predicted && predictedText == DecimalString(predicted)
      ensures !ran ==> predicted == old(predicted) && predictedText == old(predictedText)
    {
      if !modelLoaded {
        return false;
      }
      if isDrawing {
        ran := RunInference(sampler);
      } else {
        ran := false;
      }
    }

    /** `OnDisable`: dispose the current worker. `modelLoaded` stays set, so
        a later `Update` reaches a worker that can no longer run. */
    method Disable()
      requires Valid()
      modifies worker
      ensures Valid()
      ensures forall w :: w in workers ==> !w.live
    {
      if worker != null {
        worker.Dispose();
      }
    }
  }
}
