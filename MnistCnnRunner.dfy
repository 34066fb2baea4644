/** `ModelExecutionMNISTCNN`: the convolutional-only classifier. It loads its
    model once, and every frame (the key check is commented out in the
    source) classifies the board's resized image as a `(1, 28, 28)` tensor. */
module MnistCnnRunner {
  import opened Pixels
  import opened MnistTensors
  import opened Board

  class ModelExecutionMNISTCNN {
    const drawingBoard: DrawingBoard
    var worker: Worker?
    var predicted: int
    var predictedText: string

    /** The component as the scene creates it, before `Start`. */
    constructor (board: DrawingBoard)
      ensures drawingBoard == board && worker == null
      ensures predicted == 0 && predictedText == ""
    {
      drawingBoard := board;
      worker := null;
      predicted := 0;
      predictedText := "";
    }

    /** `Start`: a worker on the loaded model. */
    method Start(model: Model)
      modifies this
      ensures worker != null && fresh(worker) && worker.live && worker.model == model
      ensures predicted == old(predicted) && predictedText == old(predictedText)
    {
      worker := new Worker(model);
    }

    /** `Update`: one inference on the resized board, shaped `(1, 28, 28)`.
        As in `ModelExecutionMNIST`, a resized image of more than 784 pixels
        or a disposed worker leaves the shown digit as it was. */
    method Update(sampler: (seq<Color>, real, real) -> Color) returns (ran: bool)
      requires worker != null && 2 <= drawingBoard.modelInputSize
      modifies this
      ensures worker == old(worker)
      ensures var n := drawingBoard.modelInputSize;
        ran <==> n * n <= InputLength && worker.live
      ensures var n := drawingBoard.modelInputSize;
        ran ==> (n * n <= InputLength &&
          IsPrediction(worker.model.run(InputTensor(true, Resampled(BoardSampler(sampler, drawingBoard.drawTexture.pixels[..]), n))), predicted))
      ensures ran ==> 0 <= predicted && predictedText == DecimalString(predicted)
      ensures !ran ==> predicted == old(predicted) && predictedText == old(predictedText)
    {
      var drawn := drawingBoard.GetResizedForModel(sampler);
      var ok, inputData := TextureToInput(drawn.pixels[..]);
      if !ok {
        return false;
      }
      var input := Tensor(InputShape(true), inputData[..]);
      assert input == InputTensor(true, drawn.pixels[..]) && WellShaped(input);
      if !worker.live {
        return false;
      }
      var output := worker.model.run(input);
      var p := ArgMax(output);
      predicted := p;
      predictedText := DecimalString(p);
      ran := true;
    }

    /** `OnDisable`: dispose the worker, if there is one. */
    method Disable()
      modifies worker
      ensures worker != null ==> !worker.live
    {
      if worker != null {
        worker.Dispose();
      }
    }
  }
}
