/** The fixed-topology feedforward controller of neural_network.py: one
    hidden layer, a scalar bias appended to each layer's input. */
module NeuralNet {
  import opened Util

  /** A weight matrix as a list of rows (numpy's tolist()). */
  type Matrix = seq<seq<real>>

  /** The shape numpy reports: rows x cols, every row of the same length. */
  predicate IsMatrix(m: Matrix, rows: nat, cols: nat) {
    |m| == rows && forall i :: 0 <= i < |m| ==> |m[i]| == cols
  }

  /** Every row of m can be dotted with a vector of length n. */
  predicate RowsMatch(m: Matrix, n: nat) {
    forall i :: 0 <= i < |m| ==> |m[i]| == n
  }

  /** np.dot of two vectors. */
  function Dot(a: seq<real>, b: seq<real>): real
    requires |a| == |b|
  {
    if |a| == 0 then 0.0 else a[0] * b[0] + Dot(a[1..], b[1..])
  }

  /** Appending the bias to a layer's input makes the last weight of a row
      the bias weight: the row's other weights meet the input as before. */
  lemma {:induction false} DotWithBias(row: seq<real>, v: seq<real>, bias: real)
    requires |row| == |v| + 1
    ensures Dot(row, v + [bias]) == Dot(row[..|v|], v) + row[|v|] * bias
  {
    if |v| == 0 {
      assert row[..0] == [];
    } else {
      assert (v + [bias])[1..] == v[1..] + [bias];
      assert row[1..][..|v| - 1] == row[..|v|][1..];
      DotWithBias(row[1..], v[1..], bias);
    }
  }

  /** One layer: the sigmoid of the dot product of each row with v, row
      by row. Every activation lies strictly between 0 and 1. */
  function Layer(exp: Exp, m: Matrix, v: seq<real>): (out: seq<real>)
    requires RowsMatch(m, |v|)
    ensures |out| == |m|
    ensures forall k :: 0 <= k < |out| ==> 0.0 < out[k] < 1.0
    decreases |m|
  {
    if |m| == 0 then [] else Layer(exp, m[..|m| - 1], v) + [Sigmoid(exp, Dot(m[|m| - 1], v))]
  }

  /** Activation k of a layer is the sigmoid of row k against the input. */
  lemma {:induction false} LayerAt(exp: Exp, m: Matrix, v: seq<real>, k: nat)
    requires RowsMatch(m, |v|) && k < |m|
    ensures Layer(exp, m, v)[k] == Sigmoid(exp, Dot(m[k], v))
    decreases |m|
  {
    if k < |m| - 1 {
      LayerAt(exp, m[..|m| - 1], v, k);
    }
  }

  /** Why feedforward can fail: np.dot of vectors of different lengths. */
  datatype NetError = ShapeMismatch

  /** The dictionary output_data builds and load_data reads, one field per
      key: "bias_ih", "bias_ho", "weights_ih", "weights_ho". */
  datatype NetworkData = NetworkData(biasIH: real, biasHO: real, weightsIH: Matrix, weightsHO: Matrix)

  /** The np.random.randn samples a new network draws: the two biases and
      one sample per matrix entry. */
  datatype InitDraws = InitDraws(biasIH: real, biasHO: real,
                                 weightIH: (nat, nat) -> real, weightHO: (nat, nat) -> real)

  /** The default topology: 24 sensor inputs, 12 hidden nodes, 4 outputs. */
  const InputNodes: nat := 24
  const HiddenNodes: nat := 12
  const OutputNodes: nat := 4

  class NeuralNetwork {
    var biasIH: real
    var biasHO: real
    var weightsIH: Matrix
    var weightsHO: Matrix

    /** weights_ih is hidden x (input + 1), weights_ho is output x (hidden + 1);
        the extra column is the bias weight. Every entry is a fresh sample. */
    constructor (inputNodes: nat, hiddenNodes: nat, outputNodes: nat, draws: InitDraws)
      ensures IsMatrix(weightsIH, hiddenNodes, inputNodes + 1)
      ensures IsMatrix(weightsHO, outputNodes, hiddenNodes + 1)
      ensures biasIH == draws.biasIH && biasHO == draws.biasHO
      ensures forall i, j :: 0 <= i < hiddenNodes && 0 <= j < inputNodes + 1 ==>
        weightsIH[i][j] == draws.weightIH(i, j)
      ensures forall i, j :: 0 <= i < outputNodes && 0 <= j < hiddenNodes + 1 ==>
        weightsHO[i][j] == draws.weightHO(i, j)
    {
      biasIH := draws.biasIH;
      biasHO := draws.biasHO;
      weightsIH := seq(hiddenNodes, (i: nat) => seq(inputNodes + 1, (j: nat) => draws.weightIH(i, j)));
      weightsHO := seq(outputNodes, (i: nat) => seq(hiddenNodes + 1, (j: nat) => draws.weightHO(i, j)));
    }

    /** Both matrices have the shapes of the given topology. */
    predicate HasTopology(inputNodes: nat, hiddenNodes: nat, outputNodes: nat)
      reads this`weightsIH, this`weightsHO
    {
      IsMatrix(weightsIH, hiddenNodes, inputNodes + 1) && IsMatrix(weightsHO, outputNodes, hiddenNodes + 1)
    }

    /** np.dot accepts every product feedforward forms for n inputs. */
    predicate Accepts(n: nat)
      reads this
    {
      RowsMatch(weightsIH, n + 1) && RowsMatch(weightsHO, |weightsIH| + 1)
    }

    /** The hidden activations for the given inputs. */
    function Hidden(exp: Exp, inputs: seq<real>): (hidden: seq<real>)
      reads this
      requires Accepts(|inputs|)
      ensures |hidden| == |weightsIH|
      ensures forall i :: 0 <= i < |hidden| ==> 0.0 < hidden[i] < 1.0
    {
      Layer(exp, weightsIH, inputs + [biasIH])
    }

    /** feedforward: fails exactly when a row length disagrees with the
        layer input it meets; otherwise one output per row of weights_ho,
        each the sigmoid of that row against the hidden vector plus bias_ho. */
    function Feedforward(exp: Exp, inputs: seq<real>): (r: Result<seq<real>, NetError>)
      reads this
      ensures r.Ok? <==> Accepts(|inputs|)
      ensures r.Ok? ==> |r.value| == |weightsHO|
      ensures r.Ok? ==> forall k :: 0 <= k < |r.value| ==> 0.0 < r.value[k] < 1.0
    {
      if !Accepts(|inputs|) then Err(ShapeMismatch)
      else Ok(Layer(exp, weightsHO, Hidden(exp, inputs) + [biasHO]))
    }

    /** output_data */
    function OutputData(): (data: NetworkData)
      reads this
    {
      NetworkData(biasIH, biasHO, weightsIH, weightsHO)
    }

    /** load_data: after it, output_data returns exactly what was loaded,
        so loading a network's own output_data restores all four fields. */
    method LoadData(data: NetworkData)
      modifies this
      ensures OutputData() == data
    {
      biasIH := data.biasIH;
      biasHO := data.biasHO;
      weightsIH := data.weightsIH;
      weightsHO := data.weightsHO;
    }
  }

  /** Hidden node i is the sigmoid of row i of weights_ih against the
      inputs followed by bias_ih; output k is the sigmoid of row k of
      weights_ho against the hidden vector followed by bias_ho. */
  lemma FeedforwardNodes(nn: NeuralNetwork, exp: Exp, inputs: seq<real>, i: nat, k: nat)
    requires nn.Accepts(|inputs|) && i < |nn.weightsIH| && k < |nn.weightsHO|
    ensures nn.Hidden(exp, inputs)[i] == Sigmoid(exp, Dot(nn.weightsIH[i], inputs + [nn.biasIH]))
    ensures nn.Feedforward(exp, inputs).value[k]
         == Sigmoid(exp, Dot(nn.weightsHO[k], nn.Hidden(exp, inputs) + [nn.biasHO]))
  {
    LayerAt(exp, nn.weightsIH, inputs + [nn.biasIH], i);
    LayerAt(exp, nn.weightsHO, nn.Hidden(exp, inputs) + [nn.biasHO], k);
  }

  /** A network of the given topology accepts exactly inputNodes inputs and
      yields outputNodes outputs, each strictly between 0 and 1. */
  lemma TopologyFixesShapes(nn: NeuralNetwork, exp: Exp, inputs: seq<real>, inputNodes: nat, hiddenNodes: nat, outputNodes: nat)
    requires nn.HasTopology(inputNodes, hiddenNodes, outputNodes) && hiddenNodes > 0
    ensures nn.Feedforward(exp, inputs).Ok? <==> |inputs| == inputNodes
    ensures |inputs| == inputNodes ==>
      var out := nn.Feedforward(exp, inputs).value;
      |out| == outputNodes && forall k :: 0 <= k < outputNodes ==> 0.0 < out[k] < 1.0
  {
    if nn.Feedforward(exp, inputs).Ok? {
      assert |nn.weightsIH[0]| == |inputs| + 1;
    }
  }

  /** Saving a network and loading the result back into any network gives
      a network that computes the same function. */
  method LoadOutputDataRoundTrip(source: NeuralNetwork, target: NeuralNetwork, exp: Exp, inputs: seq<real>)
    modifies target
    ensures target.OutputData() == source.OutputData()
    ensures target.Feedforward(exp, inputs) == source.Feedforward(exp, inputs)
  {
    var data := source.OutputData();
    target.LoadData(data);
  }
}
