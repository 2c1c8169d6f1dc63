/** The two-layer feedforward controller of neural_network.py. */
module NeuralNet {
  import opened Wrappers

  /** The exception the controller can raise: a list index out of range. */
  datatype Failure = IndexError

  /** `math.exp`, left uninterpreted except that every value it returns is positive. */
  type ExpFn = f: real -> real | forall x :: f(x) > 0.0 witness (x: real) => 1.0

  /**
   * `sigmoid` as written: `1 / 1 + math.exp(-x)` parses as `(1 / 1) + exp(-x)`,
   * so the value is never below 1 (see the Findings of the README).
   */
  function Sigmoid(exp: ExpFn, x: real): (r: real)
    ensures r > 1.0
  {
    1.0 / 1.0 + exp(-x)
  }

  /** The activation `forward` applies, as a function value. */
  function SigmoidOf(exp: ExpFn): real -> real
  {
    x => Sigmoid(exp, x)
  }

  /** The logistic function the name promises: 1 / (1 + exp(-x)). */
  function Logistic(exp: ExpFn, x: real): (r: real)
    ensures 0.0 < r < 1.0
    ensures r * (1.0 + exp(-x)) == 1.0
  {
    var e := exp(-x);
    assert 1.0 + e > 1.0;
    1.0 / (1.0 + e)
  }

  /** The corrected activation, as a function value. */
  function LogisticOf(exp: ExpFn): real -> real
  {
    x => Logistic(exp, x)
  }

  /**
   * The four parameter lists of a network: `W1` (input rows of hidden
   * columns), `b1`, `W2` (hidden rows of output columns) and `b2`.  The same
   * shape also carries the per-entry random draws of crossover and mutation.
   */
  datatype Layers<T> = Layers(W1: seq<seq<T>>, b1: seq<T>, W2: seq<seq<T>>, b2: seq<T>)

  /** `p` has the shape a network of the given sizes is built with. */
  predicate Shaped<T>(p: Layers<T>, inputSize: nat, hiddenSize: nat, outputSize: nat)
  {
    && |p.W1| == inputSize
    && (forall i :: 0 <= i < inputSize ==> |p.W1[i]| == hiddenSize)
    && |p.b1| == hiddenSize
    && |p.W2| == hiddenSize
    && (forall h :: 0 <= h < hiddenSize ==> |p.W2[h]| == outputSize)
    && |p.b2| == outputSize
  }

  /** The sizes are consistent: rectangular matrices matching the bias lengths. */
  predicate WellFormed<T>(p: Layers<T>)
  {
    Shaped(p, |p.W1|, |p.b1|, |p.b2|)
  }

  /** `q` has exactly the shape of `p`. */
  predicate SameShape<T, U>(p: Layers<T>, q: Layers<U>)
  {
    Shaped(q, |p.W1|, |p.b1|, |p.b2|)
  }

  /** Every weight and bias of `p` lies in [lo, hi]. */
  predicate EntriesIn(p: Layers<real>, lo: real, hi: real)
  {
    && (forall i, j :: 0 <= i < |p.W1| && 0 <= j < |p.W1[i]| ==> lo <= p.W1[i][j] <= hi)
    && (forall j :: 0 <= j < |p.b1| ==> lo <= p.b1[j] <= hi)
    && (forall i, j :: 0 <= i < |p.W2| && 0 <= j < |p.W2[i]| ==> lo <= p.W2[i][j] <= hi)
    && (forall j :: 0 <= j < |p.b2| ==> lo <= p.b2[j] <= hi)
  }

  /** How many `random.uniform` draws the constructor makes. */
  function ParamCount(inputSize: nat, hiddenSize: nat, outputSize: nat): nat
  {
    inputSize * hiddenSize + hiddenSize + hiddenSize * outputSize + outputSize
  }

  /** A `rows` x `cols` matrix filled row by row from `draws`, as a nested comprehension does. */
  function Matrix(rows: nat, cols: nat, draws: seq<real>): (m: seq<seq<real>>)
    requires |draws| == rows * cols
    ensures |m| == rows
    ensures forall i :: 0 <= i < rows ==> |m[i]| == cols
    ensures forall i, j :: 0 <= i < rows && 0 <= j < cols ==> m[i][j] in draws
    decreases rows
  {
    if rows == 0 then []
    else
      RowSplit(rows, cols);
      [draws[..cols]] + Matrix(rows - 1, cols, draws[cols..])
  }

  lemma RowSplit(rows: nat, cols: nat)
    requires rows > 0
    ensures rows * cols == (rows - 1) * cols + cols
  {
  }

  /**
   * The parameters `NeuralNetwork.__init__` builds from the sequence of its
   * `random.uniform(-1, 1)` draws, taken in the order the comprehensions make
   * them: `W1` row by row, then `b1`, then `W2` row by row, then `b2`.
   */
  function InitialParams(inputSize: nat, hiddenSize: nat, outputSize: nat, draws: seq<real>): (p: Layers<real>)
    requires |draws| == ParamCount(inputSize, hiddenSize, outputSize)
    ensures Shaped(p, inputSize, hiddenSize, outputSize)
    ensures (forall k :: 0 <= k < |draws| ==> -1.0 <= draws[k] <= 1.0) ==> EntriesIn(p, -1.0, 1.0)
  {
    var a := inputSize * hiddenSize;
    var b := a + hiddenSize;
    var c := b + hiddenSize * outputSize;
    Layers(Matrix(inputSize, hiddenSize, draws[..a]), draws[a..b],
           Matrix(hiddenSize, outputSize, draws[b..c]), draws[c..])
  }

  /** `inputs[0] * m[0][col] + ... + inputs[n-1] * m[n-1][col]`, accumulated left to right. */
  function WeightedSum(inputs: seq<real>, m: seq<seq<real>>, col: nat, n: nat): real
    requires n <= |inputs| && n <= |m|
    requires forall i :: 0 <= i < n ==> col < |m[i]|
  {
    if n == 0 then 0.0
    else WeightedSum(inputs, m, col, n - 1) + inputs[n - 1] * m[n - 1][col]
  }

  /** One layer: neuron `k` squashes the weighted sum of `inputs` in column `k` plus `bias[k]`. */
  function Layer(inputs: seq<real>, m: seq<seq<real>>, bias: seq<real>, act: real -> real): seq<real>
    requires 0 < |bias| ==> |inputs| <= |m|
    requires forall i :: 0 <= i < |inputs| && i < |m| ==> |bias| <= |m[i]|
  {
    seq(|bias|, k requires 0 <= k < |bias| => act(WeightedSum(inputs, m, k, |inputs|) + bias[k]))
  }

  /**
   * What `forward` computes with activation `act`: it raises IndexError when
   * `W1` is empty (`W1[0]`), when there are more inputs than rows of `W1`
   * (`W1[i]`), and when there is no hidden neuron (`W2[0]` on an empty `W2`).
   */
  function Activations(p: Layers<real>, inputs: seq<real>, act: real -> real): Result<seq<real>, Failure>
    requires WellFormed(p)
  {
    if |p.W1| == 0 || |p.b1| == 0 || |inputs| > |p.W1| then Err(IndexError)
    else Ok(Layer(Layer(inputs, p.W1, p.b1, act), p.W2, p.b2, act))
  }

  /** `forward` succeeds exactly on non-empty layers and inputs no longer than `W1`, and then yields one value per output neuron. */
  lemma ForwardShape(p: Layers<real>, inputs: seq<real>, act: real -> real)
    requires WellFormed(p)
    ensures Activations(p, inputs, act).Ok? <==> (0 < |p.W1| && 0 < |p.b1| && |inputs| <= |p.W1|)
    ensures Activations(p, inputs, act).Ok? ==> |Activations(p, inputs, act).value| == |p.b2|
  {
  }

  /** Neuron `k` of a layer is the activation of its weighted input sum plus its bias. */
  lemma LayerNeuron(inputs: seq<real>, m: seq<seq<real>>, bias: seq<real>, act: real -> real, k: nat)
    requires |inputs| <= |m|
    requires forall i :: 0 <= i < |inputs| && i < |m| ==> |bias| <= |m[i]|
    requires k < |bias|
    ensures |Layer(inputs, m, bias, act)| == |bias|
    ensures Layer(inputs, m, bias, act)[k] == act(WeightedSum(inputs, m, k, |inputs|) + bias[k])
  {
  }

  /** With the `sigmoid` as written every output of `forward` is above 1, hence above 0.5. */
  lemma AsWrittenOutputsAboveOne(p: Layers<real>, inputs: seq<real>, exp: ExpFn)
    requires WellFormed(p)
    requires Activations(p, inputs, SigmoidOf(exp)).Ok?
    ensures forall o :: o in Activations(p, inputs, SigmoidOf(exp)).value ==> o > 1.0
  {
    var act := SigmoidOf(exp);
    var hidden := Layer(inputs, p.W1, p.b1, act);
    var outputs := Layer(hidden, p.W2, p.b2, act);
    forall k | 0 <= k < |p.b2|
      ensures outputs[k] > 1.0
    {
      LayerNeuron(hidden, p.W2, p.b2, act, k);
    }
  }

  /** With the logistic function every output of `forward` lies strictly between 0 and 1. */
  lemma LogisticOutputsInUnitInterval(p: Layers<real>, inputs: seq<real>, exp: ExpFn)
    requires WellFormed(p)
    requires Activations(p, inputs, LogisticOf(exp)).Ok?
    ensures forall o :: o in Activations(p, inputs, LogisticOf(exp)).value ==> 0.0 < o < 1.0
  {
    var act := LogisticOf(exp);
    var hidden := Layer(inputs, p.W1, p.b1, act);
    var outputs := Layer(hidden, p.W2, p.b2, act);
    forall k | 0 <= k < |p.b2|
      ensures 0.0 < outputs[k] < 1.0
    {
      LayerNeuron(hidden, p.W2, p.b2, act, k);
    }
  }

  /** A sequence that holds, neuron by neuron, what `Layer` computes is that layer. */
  lemma LayerByNeurons(outputs: seq<real>, inputs: seq<real>, m: seq<seq<real>>, bias: seq<real>, act: real -> real)
    requires 0 < |bias| ==> |inputs| <= |m|
    requires forall i :: 0 <= i < |m| ==> |m[i]| == |bias|
    requires |outputs| == |bias|
    requires forall n :: 0 <= n < |bias| ==> outputs[n] == act(WeightedSum(inputs, m, n, |inputs|) + bias[n])
    ensures outputs == Layer(inputs, m, bias, act)
  {
    var layer := Layer(inputs, m, bias, act);
    forall n | 0 <= n < |bias|
      ensures outputs[n] == layer[n]
    {
      LayerNeuron(inputs, m, bias, act, n);
    }
  }

  /**
   * The inner loop of `forward`: `sum_` accumulates `inputs[i] * m[i][col]`
   * over `i < len(inputs)`; reading a row of `m` beyond its last one raises
   * IndexError.
   */
  method WeightedSumLoop(inputs: seq<real>, m: seq<seq<real>>, col: nat) returns (r: Result<real, Failure>)
    requires forall i :: 0 <= i < |m| ==> col < |m[i]|
    ensures r.Err? <==> |m| < |inputs|
    ensures r.Ok? ==> r.value == WeightedSum(inputs, m, col, |inputs|)
  {
    var sum := 0.0;
    var i := 0;
    while i < |inputs|
      invariant 0 <= i <= |inputs| && i <= |m|
      invariant sum == WeightedSum(inputs, m, col, i)
    {
      if i >= |m| {
        return Err(IndexError);
      }
      sum := sum + inputs[i] * m[i][col];
      i := i + 1;
    }
    return Ok(sum);
  }

  /**
   * The outer loop of each layer of `forward`: for every neuron `k` it adds
   * `bias[k]` to the weighted sum and appends the activation.
   */
  method Neurons(inputs: seq<real>, m: seq<seq<real>>, bias: seq<real>, act: real -> real) returns (r: Result<seq<real>, Failure>)
    requires forall i :: 0 <= i < |m| ==> |m[i]| == |bias|
    ensures r.Err? <==> (0 < |bias| && |m| < |inputs|)
    ensures r.Ok? ==> r.value == Layer(inputs, m, bias, act)
  {
    var outputs: seq<real> := [];
    var k := 0;
    while k < |bias|
      invariant 0 <= k <= |bias|
      invariant k > 0 ==> |inputs| <= |m|
      invariant |outputs| == k
      invariant forall n :: 0 <= n < k ==> outputs[n] == act(WeightedSum(inputs, m, n, |inputs|) + bias[n])
    {
      var sum := WeightedSumLoop(inputs, m, k);
      if sum.Err? {
        return Err(IndexError);
      }
      outputs := outputs + [act(sum.value + bias[k])];
      assert outputs[k] == act(WeightedSum(inputs, m, k, |inputs|) + bias[k]);
      k := k + 1;
    }
    LayerByNeurons(outputs, inputs, m, bias, act);
    return Ok(outputs);
  }

  /** The parameters of each network of a population, in order. */
  function Snapshot(population: seq<NeuralNetwork>): (ps: seq<Layers<real>>)
    reads population
    ensures |ps| == |population|
    ensures forall k :: 0 <= k < |population| ==> ps[k] == population[k].Params()
  {
    seq(|population|, k requires 0 <= k < |population| reads population => population[k].Params())
  }

  /** A network: its four parameter lists are fields that the genetic operators rewrite. */
  class NeuralNetwork {
    var W1: seq<seq<real>>
    var b1: seq<real>
    var W2: seq<seq<real>>
    var b2: seq<real>

    /** The current parameters as a value. */
    function Params(): Layers<real>
      reads this
    {
      Layers(W1, b1, W2, b2)
    }

    ghost predicate Valid()
      reads this
    {
      WellFormed(Params())
    }

    /** `NeuralNetwork(input_size, hidden_size, output_size)`, with its uniform draws as `draws`. */
    constructor (inputSize: nat, hiddenSize: nat, outputSize: nat, draws: seq<real>)
      requires |draws| == ParamCount(inputSize, hiddenSize, outputSize)
      requires forall k :: 0 <= k < |draws| ==> -1.0 <= draws[k] <= 1.0
      ensures Params() == InitialParams(inputSize, hiddenSize, outputSize, draws)
      ensures Valid() && Shaped(Params(), inputSize, hiddenSize, outputSize)
      ensures EntriesIn(Params(), -1.0, 1.0)
    {
      var p := InitialParams(inputSize, hiddenSize, outputSize, draws);
      W1, b1, W2, b2 := p.W1, p.b1, p.W2, p.b2;
    }

    /** `copy.deepcopy`: a new network with equal, unshared parameters. */
    constructor Copy(source: NeuralNetwork)
      ensures Params() == source.Params()
    {
      W1, b1, W2, b2 := source.W1, source.b1, source.W2, source.b2;
    }

    /**
     * `forward(inputs)`: the hidden layer has `len(W1[0])` neurons and the
     * output layer `len(W2[0])`; the fields are read, never written.  The
     * activation is a parameter: the source's `sigmoid` is `SigmoidOf(exp)`.
     */
    method Forward(inputs: seq<real>, act: real -> real) returns (r: Result<seq<real>, Failure>)
      requires Valid()
      ensures r == Activations(Params(), inputs, act)
    {
      if |W1| == 0 {
        return Err(IndexError);
      }
      var hidden := Neurons(inputs, W1, b1, act);
      if hidden.Err? {
        return Err(IndexError);
      }
      if |W2| == 0 {
        return Err(IndexError);
      }
      r := Neurons(hidden.value, W2, b2, act);
    }
  }
}
