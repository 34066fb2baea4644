/** The routines both MNIST classifiers carry as identical private copies:
    the first-maximum scan over the output tensor, the conversion of the
    28 x 28 drawing into the 784-entry input vector, the input tensor shapes,
    and the decimal text of the predicted digit. */
module MnistTensors {
  import opened Pixels

  /** `float.MaxValue`. */
  const FloatMax: real := 340282346638528859811704183484516925440.0

  /** `float.MinValue`, the starting maximum of the scan. */
  const FloatMin: real := -FloatMax

  /** A finite single-precision value (infinities and NaN are not modelled). */
  type Float = x: real | FloatMin <= x <= FloatMax

  /** `28 * 28`, the length of the classifiers' input vector. */
  const InputLength: nat := 28 * 28

  /** `idx` holds a largest element, and every element before it is strictly smaller. */
  predicate IsFirstMax(a: seq<real>, idx: int)
  {
    0 <= idx < |a| &&
    (forall j :: 0 <= j < |a| ==> a[j] <= a[idx]) &&
    (forall j :: 0 <= j < idx ==> a[j] < a[idx])
  }

  /** The digit a classifier reports for output `a`: 0 when the output is
      empty, otherwise its first largest entry. */
  predicate IsPrediction(a: seq<real>, idx: int)
  {
    if |a| == 0 then idx == 0 else IsFirstMax(a, idx)
  }

  /** `ArgMax(tensor)`: index 0 for an empty tensor, otherwise the first
      position of a largest value (the test `val > max` is strict). */
  method ArgMax(a: seq<Float>) returns (index: int)
    ensures IsPrediction(a, index)
    ensures 0 <= index && (|a| > 0 ==> index < |a|)
  {
    index := 0;
    var max: real := FloatMin;
    var i := 0;
    while i < |a|
      invariant 0 <= i <= |a|
      invariant i == 0 ==> index == 0 && max == FloatMin
      invariant i > 0 ==> 0 <= index < i && a[index] == max
      invariant forall j :: 0 <= j < i ==> a[j] <= max
      invariant forall j :: 0 <= j < index ==> a[j] < max
    {
      var val := a[i];
      if val > max {
        max := val;
        index := i;
      }
      i := i + 1;
    }
  }

  /** The first-maximum position is unique, so the contract of `ArgMax`
      fixes its result. */
  lemma PredictionUnique(a: seq<real>, i: int, j: int)
    requires IsPrediction(a, i) && IsPrediction(a, j)
    ensures i == j
  {
    if |a| > 0 {
      assert a[i] <= a[j] && a[j] <= a[i];
    }
  }

  /** `new Tensor<float>(shape, data)`: a shape and its elements in order. */
  datatype Tensor = Tensor(shape: seq<nat>, data: seq<real>)

  /** The shape holds exactly as many elements as the data, which the
      engine demands of a new tensor. */
  predicate WellShaped(t: Tensor)
  {
    ShapeLength(t.shape) == |t.data|
  }

  /** What `ModelLoader.Load` yields that the components look at: the rank of
      the first input's shape, and the network as a function from the input
      tensor to the output tensor read back to the CPU. */
  datatype Model = Model(inputRank: nat, run: Tensor -> seq<Float>)

  /** The engine's `Worker`: runs one model until it is disposed. */
  class Worker {
    const model: Model
    var live: bool

    constructor (m: Model)
      ensures model == m && live
    {
      model := m;
      live := true;
    }

    /** `Dispose()`; disposing twice is harmless. */
    method Dispose()
      modifies this
      ensures !live
    {
      live := false;
    }
  }

  /** The input vector the classifiers build: the grayscale of each pixel in
      order, zero beyond the last pixel. */
  function MnistInput(pixels: seq<Color>): (data: seq<real>)
    requires |pixels| <= InputLength
  {
    seq(InputLength, i => if 0 <= i < |pixels| then Grayscale(pixels[i]) else 0.0)
  }

  /** Every entry of the input vector lies in [0, 1] when the pixels are
      displayable colours, and a blank (black) drawing gives all zeros. */
  lemma MnistInputRange(pixels: seq<Color>)
    requires |pixels| <= InputLength
    ensures |MnistInput(pixels)| == InputLength
    ensures (forall i :: 0 <= i < |pixels| ==> InGamut(pixels[i])) ==>
      forall i :: 0 <= i < InputLength ==> 0.0 <= MnistInput(pixels)[i] <= 1.0
    ensures (forall i :: 0 <= i < |pixels| ==> pixels[i] == Black) ==>
      forall i :: 0 <= i < InputLength ==> MnistInput(pixels)[i] == 0.0
  {
    var data := MnistInput(pixels);
    if forall i :: 0 <= i < |pixels| ==> InGamut(pixels[i]) {
      forall i | 0 <= i < InputLength
        ensures 0.0 <= data[i] <= 1.0
      {
        if i < |pixels| {
          var g := Grayscale(pixels[i]);
        }
      }
    }
  }

  /** `TextureToMNISTInput(tex)`: a fresh 784-slot array (zeros, as C# makes
      it) whose first `|pixels|` slots receive the pixels' grayscale. More
      than 784 pixels runs off the end of the array: the loop stops there
      with `ok == false`, as the source's exception would. */
  method TextureToInput(pixels: seq<Color>) returns (ok: bool, data: array<real>)
    ensures data.Length == InputLength
    ensures ok <==> |pixels| <= InputLength
    ensures ok ==> data[..] == MnistInput(pixels)
    ensures !ok ==> forall i :: 0 <= i < InputLength ==> data[i] == Grayscale(pixels[i])
  {
    data := new real[InputLength](_ => 0.0);
    var i := 0;
    while i < |pixels|
      invariant 0 <= i <= |pixels| && i <= InputLength
      invariant forall j :: 0 <= j < i ==> data[j] == Grayscale(pixels[j])
      invariant forall j :: i <= j < InputLength ==> data[j] == 0.0
    {
      if i >= data.Length {
        ok := false;
        return;
      }
      data[i] := Grayscale(pixels[i]);
      i := i + 1;
    }
    ok := true;
  }

  /** The input tensor shape: `(1, 28, 28)` for a convolutional model,
      `(1, 784)` for a fully connected one. */
  function InputShape(isCNN: bool): seq<nat>
  {
    if isCNN then [1, 28, 28] else [1, 28 * 28]
  }

  /** Number of elements of a tensor of shape `s`. */
  function ShapeLength(s: seq<nat>): nat
  {
    if s == [] then 1 else s[0] * ShapeLength(s[1..])
  }

  /** The input tensor a classifier hands its worker: the drawing's input
      vector in the shape for a convolutional or a fully connected model. */
  function InputTensor(isCNN: bool, pixels: seq<Color>): (t: Tensor)
    requires |pixels| <= InputLength
    ensures WellShaped(t) && |t.data| == InputLength
    ensures |t.shape| == (if isCNN then 3 else 2)
  {
    ShapeMatchesInput(isCNN, pixels);
    Tensor(InputShape(isCNN), MnistInput(pixels))
  }

  /** Both shapes hold exactly as many elements as the input vector. */
  lemma {:induction false} ShapeMatchesInput(isCNN: bool, pixels: seq<Color>)
    requires |pixels| <= InputLength
    ensures ShapeLength(InputShape(isCNN)) == |MnistInput(pixels)| == InputLength
  {
    var s := InputShape(isCNN);
    if isCNN {
      assert s[1..][1..][1..] == [];
      assert ShapeLength(s[1..][1..]) == 28;
      assert ShapeLength(s[1..]) == 28 * 28;
    } else {
      assert s[1..][1..] == [];
      assert ShapeLength(s[1..]) == 28 * 28;
    }
  }

  /** The digit character for `d`. */
  function DigitChar(d: nat): char
    requires d < 10
  {
    ('0' as int + d) as char
  }

  predicate IsDigit(c: char)
  {
    '0' <= c <= '9'
  }

  /** `n.ToString()` for a non-negative `n`: its decimal digits, most
      significant first, with no leading zero. */
  function DecimalString(n: nat): (s: string)
    ensures 1 <= |s| && forall i :: 0 <= i < |s| ==> IsDigit(s[i])
    ensures s[0] == '0' ==> n == 0
    decreases n
  {
    if n < 10 then [DigitChar(n)] else DecimalString(n / 10) + [DigitChar(n % 10)]
  }

  /** The value of a string of decimal digits. */
  function DecimalValue(s: string): nat
    requires forall i :: 0 <= i < |s| ==> IsDigit(s[i])
    decreases |s|
  {
    if s == [] then 0
    else
      assert IsDigit(s[|s| - 1]);
      10 * DecimalValue(s[..|s| - 1]) + (s[|s| - 1] as int - '0' as int)
  }

  /** The label text reads back as the predicted number. */
  lemma {:induction false} DecimalRoundTrip(n: nat)
    ensures DecimalValue(DecimalString(n)) == n
    decreases n
  {
    var s := DecimalString(n);
    if n >= 10 {
      DecimalRoundTrip(n / 10);
      assert s[..|s| - 1] == DecimalString(n / 10);
    }
  }
}
