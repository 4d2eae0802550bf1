/**
 The network engine of the agent: a fixed-topology feed-forward network with
 relu hidden layers and a sigmoid output layer, trained on-line by
 backpropagation, plus whole-state export and import.

 Weights of layer `l` are a flattened row-major matrix: the weight from input
 `j` to neuron `i` sits at index `i * layerSizes[l] + j`. Arithmetic is exact
 (`real`); the logistic function is a parameter known only by its range.
 */
module NeuralNetwork {
  import opened Wrappers

  /** `sigmoid(x) = 1 / (1 + exp(-x))`. The model only relies on its range. */
  type Sigmoid = f: real -> real | forall x :: 0.0 < f(x) < 1.0 witness (x: real) => 0.5

  datatype Network = Network(
    layerSizes: seq<nat>,
    weights: seq<seq<real>>,
    biases: seq<seq<real>>,
    learningRate: real)

  /** One training example: `{ inputs, targets }`. */
  datatype Sample = Sample(inputs: seq<real>, targets: seq<real>)

  /** The object `exportState` returns and `importState` accepts; a field may be missing. */
  datatype Snapshot = Snapshot(weights: Option<seq<seq<real>>>, biases: Option<seq<seq<real>>>)

  /** The state of the backward pass between two layers: the network so far and the errors to hand down. */
  datatype Propagation = Propagation(net: Network, errors: seq<real>)

  // ---------------------------------------------------------------------------
  // Shape discipline
  // ---------------------------------------------------------------------------

  /** Array lengths derived from the layer sizes: layer `l` has `sizes[l+1] * sizes[l]` weights and `sizes[l+1]` biases. */
  predicate ShapedFor(sizes: seq<nat>, weights: seq<seq<real>>, biases: seq<seq<real>>) {
    && |weights| + 1 == |sizes|
    && |biases| == |weights|
    && forall l :: 0 <= l < |weights| ==>
         |weights[l]| == sizes[l + 1] * sizes[l] && |biases[l]| == sizes[l + 1]
  }

  predicate WellShaped(net: Network) {
    ShapedFor(net.layerSizes, net.weights, net.biases)
  }

  function OutputSize(net: Network): nat
    requires WellShaped(net)
  {
    net.layerSizes[|net.layerSizes| - 1]
  }

  /** A sample `backpropagate` can read without touching `undefined`. */
  predicate Fits(net: Network, s: Sample)
    requires WellShaped(net)
  {
    |s.inputs| == net.layerSizes[0] && |s.targets| >= OutputSize(net)
  }

  predicate AllFit(net: Network, data: seq<Sample>)
    requires WellShaped(net)
  {
    forall k :: 0 <= k < |data| ==> Fits(net, data[k])
  }

  // ---------------------------------------------------------------------------
  // Index arithmetic of the flattened matrices
  // ---------------------------------------------------------------------------

  lemma MulMono(a: nat, b: nat, n: nat)
    requires a <= b
    ensures a * n <= b * n
  {
    var d := b - a;
    assert b * n == a * n + d * n;
  }

  /** Row `i` of an `nOut` by `nIn` matrix lies inside the flattened array. */
  lemma RowFits(i: nat, nIn: nat, nOut: nat)
    requires i < nOut
    ensures i * nIn + nIn <= nOut * nIn
  {
    MulMono(i + 1, nOut, nIn);
  }

  /** Index `i * n + j` is row `i`, column `j`. */
  lemma RowCol(i: nat, j: nat, n: nat)
    requires j < n
    ensures (i * n + j) / n == i && (i * n + j) % n == j
  {
    var k := i * n + j;
    var q, r := k / n, k % n;
    assert k == q * n + r && 0 <= r < n;
    if q > i {
      MulMono(i + 1, q, n);
    } else if q < i {
      MulMono(q + 1, i, n);
    }
  }

  /** Every index of an `nOut` by `nIn` matrix has a row below `nOut`. */
  lemma IndexRow(k: nat, nIn: nat, nOut: nat)
    requires k < nOut * nIn
    ensures nIn > 0 && k / nIn < nOut && k % nIn < nIn
  {
    if nIn > 0 {
      var q, r := k / nIn, k % nIn;
      assert k == q * nIn + r;
      if q >= nOut {
        MulMono(nOut, q, nIn);
      }
    }
  }

  // ---------------------------------------------------------------------------
  // Activation functions
  // ---------------------------------------------------------------------------

  /** `relu(x) = Math.max(0, x)`. */
  function Relu(x: real): (r: real)
    ensures r >= 0.0 && r >= x
    ensures r == x || r == 0.0
  {
    if x > 0.0 then x else 0.0
  }

  /** `dRelu`, applied to an activation: 1 for a positive activation, else 0. */
  function DRelu(a: real): (r: real)
    ensures r == 0.0 || r == 1.0
    ensures r == 1.0 <==> a > 0.0
  {
    if a > 0.0 then 1.0 else 0.0
  }

  /** `dSigmoid`, applied to an activation `a`: `a * (1 - a)`, which never exceeds 1/4. */
  function DSigmoid(a: real): (r: real)
    ensures r <= 0.25
    ensures 0.0 < a < 1.0 ==> 0.0 < r
    ensures r == 0.25 - (a - 0.5) * (a - 0.5)
  {
    a * (1.0 - a)
  }

  /** Sigmoid on the output layer, relu on every hidden layer. */
  function Activate(net: Network, sig: Sigmoid, layer: nat, s: real): (r: real)
    ensures layer + 1 == |net.weights| ==> 0.0 < r < 1.0
    ensures layer + 1 != |net.weights| ==> r >= 0.0
  {
    if layer + 1 == |net.weights| then sig(s) else Relu(s)
  }

  /** The activation derivative of the backward pass, evaluated on the activation itself. */
  function Derivative(net: Network, layer: nat, a: real): real {
    if layer + 1 == |net.weights| then DSigmoid(a) else DRelu(a)
  }

  // ---------------------------------------------------------------------------
  // Forward pass
  // ---------------------------------------------------------------------------

  /** `acc + w[off] * a[0] + ... + w[off + n - 1] * a[n - 1]`, added left to right. */
  function Accumulate(acc: real, w: seq<real>, off: nat, a: seq<real>, n: nat): real
    requires off + n <= |w| && n <= |a|
    decreases n
  {
    if n == 0 then acc else Accumulate(acc, w, off, a, n - 1) + w[off + n - 1] * a[n - 1]
  }

  /** Neuron `i` of a layer in `feedForward`: its sum starts at the neuron's bias. */
  function ForwardNeuron(net: Network, sig: Sigmoid, layer: nat, a: seq<real>, i: nat): real
    requires WellShaped(net) && layer < |net.weights| && |a| == net.layerSizes[layer]
    requires i < net.layerSizes[layer + 1]
  {
    var nIn := net.layerSizes[layer];
    RowFits(i, nIn, net.layerSizes[layer + 1]);
    Activate(net, sig, layer, Accumulate(net.biases[layer][i], net.weights[layer], i * nIn, a, nIn))
  }

  /** One layer of `feedForward`. */
  function ForwardLayer(net: Network, sig: Sigmoid, layer: nat, a: seq<real>): (r: seq<real>)
    requires WellShaped(net) && layer < |net.weights| && |a| == net.layerSizes[layer]
    ensures |r| == net.layerSizes[layer + 1]
    ensures forall i :: 0 <= i < |r| ==>
              (layer + 1 == |net.weights| ==> 0.0 < r[i] < 1.0) && (layer + 1 < |net.weights| ==> r[i] >= 0.0)
  {
    var nOut := net.layerSizes[layer + 1];
    seq(nOut, i requires 0 <= i < nOut => ForwardNeuron(net, sig, layer, a, i))
  }

  /** The layers from `layer` on, applied to the activations `a` of layer `layer`. */
  function ForwardFrom(net: Network, sig: Sigmoid, layer: nat, a: seq<real>): (r: seq<real>)
    requires WellShaped(net) && layer <= |net.weights| && |a| == net.layerSizes[layer]
    ensures |r| == OutputSize(net)
    ensures layer < |net.weights| ==> forall i :: 0 <= i < |r| ==> 0.0 < r[i] < 1.0
    decreases |net.weights| - layer
  {
    if layer == |net.weights| then a
    else ForwardFrom(net, sig, layer + 1, ForwardLayer(net, sig, layer, a))
  }

  /** `feedForward(inputArray)`: an output vector of the output layer's size, in (0, 1) when there is a layer. */
  function FeedForward(net: Network, sig: Sigmoid, input: seq<real>): (r: seq<real>)
    requires WellShaped(net) && |input| == net.layerSizes[0]
    ensures |r| == OutputSize(net)
    ensures |net.weights| > 0 ==> forall i :: 0 <= i < |r| ==> 0.0 < r[i] < 1.0
  {
    ForwardFrom(net, sig, 0, input)
  }

  /** Neuron `i` of a layer in the forward pass inside `backpropagate`: its sum starts at 0 and the bias is added last. */
  function TraceNeuron(net: Network, sig: Sigmoid, layer: nat, a: seq<real>, i: nat): real
    requires WellShaped(net) && layer < |net.weights| && |a| == net.layerSizes[layer]
    requires i < net.layerSizes[layer + 1]
  {
    var nIn := net.layerSizes[layer];
    RowFits(i, nIn, net.layerSizes[layer + 1]);
    Activate(net, sig, layer, Accumulate(0.0, net.weights[layer], i * nIn, a, nIn) + net.biases[layer][i])
  }

  /** One layer of the forward pass inside `backpropagate`. */
  function TraceLayer(net: Network, sig: Sigmoid, layer: nat, a: seq<real>): (r: seq<real>)
    requires WellShaped(net) && layer < |net.weights| && |a| == net.layerSizes[layer]
    ensures |r| == net.layerSizes[layer + 1]
  {
    var nOut := net.layerSizes[layer + 1];
    seq(nOut, i requires 0 <= i < nOut => TraceNeuron(net, sig, layer, a, i))
  }

  /** Per-layer activations the activation list of `backpropagate` holds, from layer `layer` on. */
  predicate ActsFit(net: Network, layer: nat, acts: seq<seq<real>>)
    requires WellShaped(net) && layer <= |net.weights|
  {
    && |acts| == |net.weights| - layer + 1
    && forall k :: 0 <= k < |acts| ==> |acts[k]| == net.layerSizes[layer + k]
  }

  /** The list `activations` of `backpropagate`: the input followed by every layer's output. */
  function Trace(net: Network, sig: Sigmoid, layer: nat, a: seq<real>): (acts: seq<seq<real>>)
    requires WellShaped(net) && layer <= |net.weights| && |a| == net.layerSizes[layer]
    ensures ActsFit(net, layer, acts) && acts[0] == a
    decreases |net.weights| - layer
  {
    if layer == |net.weights| then [a]
    else [a] + Trace(net, sig, layer + 1, TraceLayer(net, sig, layer, a))
  }

  /** Starting a sum at `acc` is adding `acc` to a sum started at 0. */
  lemma {:induction false} AccumulateShift(acc: real, w: seq<real>, off: nat, a: seq<real>, n: nat)
    requires off + n <= |w| && n <= |a|
    ensures Accumulate(acc, w, off, a, n) == acc + Accumulate(0.0, w, off, a, n)
    decreases n
  {
    if n > 0 {
      AccumulateShift(acc, w, off, a, n - 1);
    }
  }

  /** Bias first or bias last, a layer computes the same activations. */
  lemma TraceLayerAgrees(net: Network, sig: Sigmoid, layer: nat, a: seq<real>)
    requires WellShaped(net) && layer < |net.weights| && |a| == net.layerSizes[layer]
    ensures TraceLayer(net, sig, layer, a) == ForwardLayer(net, sig, layer, a)
  {
    var t, f := TraceLayer(net, sig, layer, a), ForwardLayer(net, sig, layer, a);
    forall i | 0 <= i < |t| ensures t[i] == f[i] {
      NeuronAgrees(net, sig, layer, a, i);
    }
  }

  /** Neuron `i` of a layer gets the same activation with the bias added first or last. */
  lemma NeuronAgrees(net: Network, sig: Sigmoid, layer: nat, a: seq<real>, i: nat)
    requires WellShaped(net) && layer < |net.weights| && |a| == net.layerSizes[layer]
    requires i < net.layerSizes[layer + 1]
    ensures TraceNeuron(net, sig, layer, a, i) == ForwardNeuron(net, sig, layer, a, i)
  {
    var nIn := net.layerSizes[layer];
    RowFits(i, nIn, net.layerSizes[layer + 1]);
    AccumulateShift(net.biases[layer][i], net.weights[layer], i * nIn, a, nIn);
  }

  /** The last activation list entry of `backpropagate` is what `feedForward` returns. */
  lemma {:induction false} TraceAgrees(net: Network, sig: Sigmoid, layer: nat, a: seq<real>)
    requires WellShaped(net) && layer <= |net.weights| && |a| == net.layerSizes[layer]
    ensures Trace(net, sig, layer, a)[|net.weights| - layer] == ForwardFrom(net, sig, layer, a)
    decreases |net.weights| - layer
  {
    if layer < |net.weights| {
      var next := TraceLayer(net, sig, layer, a);
      var rest := Trace(net, sig, layer + 1, next);
      assert Trace(net, sig, layer, a) == [a] + rest;
      calc {
        Trace(net, sig, layer, a)[|net.weights| - layer];
        rest[|net.weights| - (layer + 1)];
        { TraceAgrees(net, sig, layer + 1, next); }
        ForwardFrom(net, sig, layer + 1, next);
        { TraceLayerAgrees(net, sig, layer, a); }
        ForwardFrom(net, sig, layer + 1, ForwardLayer(net, sig, layer, a));
      }
    }
  }

  /** The forward pass of training and `feedForward` agree on the output. */
  lemma TrainingForwardPassIsFeedForward(net: Network, sig: Sigmoid, input: seq<real>)
    requires WellShaped(net) && |input| == net.layerSizes[0]
    ensures Trace(net, sig, 0, input)[|net.weights|] == FeedForward(net, sig, input)
  {
    TraceAgrees(net, sig, 0, input);
  }

  // ---------------------------------------------------------------------------
  // Backward pass
  // ---------------------------------------------------------------------------

  /** `gradients = layerErrors.map(...)`: each error times the derivative at the neuron's activation. */
  function Gradients(net: Network, layer: nat, errors: seq<real>, acts: seq<real>): (g: seq<real>)
    requires |acts| == |errors|
    ensures |g| == |errors|
  {
    seq(|errors|, i requires 0 <= i < |errors| => errors[i] * Derivative(net, layer, acts[i]))
  }

  /** `weights[layer][k] += deltas[k] * learningRate`, with `deltas[i * nIn + j] = g[i] * a[j]`. */
  function UpdateWeights(w: seq<real>, g: seq<real>, a: seq<real>, nIn: nat, nOut: nat, rate: real): (r: seq<real>)
    requires |w| == nOut * nIn && |g| == nOut && |a| == nIn
    ensures |r| == |w|
  {
    seq(|w|, k requires 0 <= k < |w| =>
      IndexRow(k, nIn, nOut);
      w[k] + g[k / nIn] * a[k % nIn] * rate)
  }

  /** The additive update rule, entry by entry. */
  lemma UpdateWeightsRule(w: seq<real>, g: seq<real>, a: seq<real>, nIn: nat, nOut: nat, rate: real, i: nat, j: nat)
    requires |w| == nOut * nIn && |g| == nOut && |a| == nIn
    requires i < nOut && j < nIn
    ensures i * nIn + j < |w|
    ensures UpdateWeights(w, g, a, nIn, nOut, rate)[i * nIn + j] == w[i * nIn + j] + g[i] * a[j] * rate
  {
    RowFits(i, nIn, nOut);
    RowCol(i, j, nIn);
  }

  /** `biases[layer][i] += gradients[i] * learningRate`. */
  function UpdateBiases(b: seq<real>, g: seq<real>, rate: real): (r: seq<real>)
    requires |g| == |b|
    ensures |r| == |b|
  {
    seq(|b|, i requires 0 <= i < |b| => b[i] + g[i] * rate)
  }

  /** `errors[i] = sum over j < m of layerErrors[j] * w[j * nIn + i]`, added in order of `j`. */
  function ErrorSum(w: seq<real>, layerErrors: seq<real>, i: nat, nIn: nat, m: nat): real
    requires i < nIn && m <= |layerErrors| && m * nIn <= |w|
    decreases m
  {
    if m == 0 then 0.0
    else
      RowFits(m - 1, nIn, m);
      ErrorSum(w, layerErrors, i, nIn, m - 1) + layerErrors[m - 1] * w[(m - 1) * nIn + i]
  }

  /** The errors handed to the layer below, weighted by `w`. */
  function PropagateErrors(w: seq<real>, layerErrors: seq<real>, nIn: nat, nOut: nat): (r: seq<real>)
    requires |w| == nOut * nIn && |layerErrors| == nOut
    ensures |r| == nIn
  {
    seq(nIn, i requires 0 <= i < nIn => ErrorSum(w, layerErrors, i, nIn, nOut))
  }

  /**
   One iteration of the backward loop of `backpropagate` for `layer`: update
   the layer's weights and biases, then compute the previous layer's errors
   from the raw errors through the weights as they are AFTER the update.
   */
  function BackwardLayer(net: Network, acts: seq<seq<real>>, layer: nat, errors: seq<real>): (r: Propagation)
    requires WellShaped(net) && layer < |net.weights| && ActsFit(net, 0, acts)
    requires |errors| == net.layerSizes[layer + 1]
    ensures WellShaped(r.net) && r.net.layerSizes == net.layerSizes && r.net.learningRate == net.learningRate
    ensures |r.errors| == net.layerSizes[layer]
    ensures forall l :: 0 <= l < |net.weights| && l != layer ==>
              r.net.weights[l] == net.weights[l] && r.net.biases[l] == net.biases[l]
    ensures forall i :: 0 <= i < |errors| ==>
              r.net.biases[layer][i]
                == net.biases[layer][i] + errors[i] * Derivative(net, layer, acts[layer + 1][i]) * net.learningRate
    ensures forall i :: 0 <= i < |r.errors| ==>
              r.errors[i] == ErrorSum(r.net.weights[layer], errors, i, net.layerSizes[layer], |errors|)
  {
    var nIn, nOut := net.layerSizes[layer], net.layerSizes[layer + 1];
    var g := Gradients(net, layer, errors, acts[layer + 1]);
    var w := UpdateWeights(net.weights[layer], g, acts[layer], nIn, nOut, net.learningRate);
    var b := UpdateBiases(net.biases[layer], g, net.learningRate);
    var updated := net.(weights := net.weights[layer := w], biases := net.biases[layer := b]);
    Propagation(updated, PropagateErrors(w, errors, nIn, nOut))
  }

  /** The weight update of `BackwardLayer`: `w[i * nIn + j] += error[i] * derivative * activation[j] * rate`. */
  lemma BackwardLayerWeightRule(net: Network, acts: seq<seq<real>>, layer: nat, errors: seq<real>, i: nat, j: nat)
    requires WellShaped(net) && layer < |net.weights| && ActsFit(net, 0, acts)
    requires |errors| == net.layerSizes[layer + 1]
    requires i < net.layerSizes[layer + 1] && j < net.layerSizes[layer]
    ensures i * net.layerSizes[layer] + j < |net.weights[layer]|
    ensures BackwardLayer(net, acts, layer, errors).net.weights[layer][i * net.layerSizes[layer] + j]
         == net.weights[layer][i * net.layerSizes[layer] + j]
            + errors[i] * Derivative(net, layer, acts[layer + 1][i]) * acts[layer][j] * net.learningRate
  {
    var nIn, nOut := net.layerSizes[layer], net.layerSizes[layer + 1];
    var g := Gradients(net, layer, errors, acts[layer + 1]);
    UpdateWeightsRule(net.weights[layer], g, acts[layer], nIn, nOut, net.learningRate, i, j);
  }

  /** The backward loop of `backpropagate` over layers `k - 1` down to 0. */
  function Backward(net: Network, acts: seq<seq<real>>, k: nat, errors: seq<real>): (r: Network)
    requires WellShaped(net) && k <= |net.weights| && ActsFit(net, 0, acts)
    requires |errors| == net.layerSizes[k]
    ensures WellShaped(r) && r.layerSizes == net.layerSizes && r.learningRate == net.learningRate
    ensures forall l :: k <= l < |net.weights| ==> r.weights[l] == net.weights[l] && r.biases[l] == net.biases[l]
    decreases k
  {
    if k == 0 then net
    else
      var p := BackwardLayer(net, acts, k - 1, errors);
      Backward(p.net, acts, k - 1, p.errors)
  }

  /** `output.map((o, index) => targets[index] - o)`. */
  function OutputErrors(output: seq<real>, targets: seq<real>): (e: seq<real>)
    requires |output| <= |targets|
    ensures |e| == |output|
  {
    seq(|output|, i requires 0 <= i < |output| => targets[i] - output[i])
  }

  /** `backpropagate(inputs, targets)`: one on-line training step on one sample. */
  function Backpropagate(net: Network, sig: Sigmoid, s: Sample): (r: Network)
    requires WellShaped(net) && Fits(net, s)
    ensures WellShaped(r) && r.layerSizes == net.layerSizes && r.learningRate == net.learningRate
  {
    var acts := Trace(net, sig, 0, s.inputs);
    Backward(net, acts, |net.weights|, OutputErrors(acts[|net.weights|], s.targets))
  }

  /** One epoch of `train`: `data.forEach(backpropagate)`, in list order. */
  function TrainPass(net: Network, sig: Sigmoid, data: seq<Sample>): (r: Network)
    requires WellShaped(net) && AllFit(net, data)
    ensures WellShaped(r) && r.layerSizes == net.layerSizes && r.learningRate == net.learningRate
    decreases |data|
  {
    if |data| == 0 then net
    else TrainPass(Backpropagate(net, sig, data[0]), sig, data[1..])
  }

  /** `train(data, epochs)`: `epochs` passes over the data; nothing happens for no epochs or no data. */
  function Train(net: Network, sig: Sigmoid, data: seq<Sample>, epochs: int): (r: Network)
    requires WellShaped(net) && AllFit(net, data)
    ensures WellShaped(r) && r.layerSizes == net.layerSizes && r.learningRate == net.learningRate
    ensures epochs <= 0 || |data| == 0 ==> r == net
    decreases epochs
  {
    if epochs <= 0 then net
    else Train(TrainPass(net, sig, data), sig, data, epochs - 1)
  }

  /** A pass over `d1 + d2` is a pass over `d1` followed by a pass over `d2`. */
  lemma {:induction false} TrainPassAppend(net: Network, sig: Sigmoid, d1: seq<Sample>, d2: seq<Sample>)
    requires WellShaped(net) && AllFit(net, d1) && AllFit(net, d2)
    ensures AllFit(net, d1 + d2)
    ensures TrainPass(net, sig, d1 + d2) == TrainPass(TrainPass(net, sig, d1), sig, d2)
    decreases |d1|
  {
    if |d1| > 0 {
      var next := Backpropagate(net, sig, d1[0]);
      assert (d1 + d2)[0] == d1[0];
      assert (d1 + d2)[1..] == d1[1..] + d2;
      assert AllFit(next, d1[1..]) && AllFit(next, d2);
      calc {
        TrainPass(net, sig, d1 + d2);
        TrainPass(next, sig, d1[1..] + d2);
        { TrainPassAppend(next, sig, d1[1..], d2); }
        TrainPass(TrainPass(next, sig, d1[1..]), sig, d2);
        TrainPass(TrainPass(net, sig, d1), sig, d2);
      }
    } else {
      assert d1 + d2 == d2;
    }
  }

  /** `f` applied `n` times. */
  function Iterate<T>(f: T -> T, x: T, n: nat): T
    decreases n
  {
    if n == 0 then x else Iterate(f, f(x), n - 1)
  }

  /** Applying `f` `a + b` times is applying it `a` times, then `b` times. */
  lemma {:induction false} IterateAdd<T>(f: T -> T, x: T, a: nat, b: nat)
    ensures Iterate(f, x, a + b) == Iterate(f, Iterate(f, x, a), b)
    decreases a
  {
    if a > 0 {
      IterateAdd(f, f(x), a - 1, b);
      assert a + b - 1 == (a - 1) + b;
    }
  }

  /** One epoch over `data` as a total step: networks the data does not fit are left alone. */
  function Epoch(sig: Sigmoid, data: seq<Sample>): Network -> Network {
    net => if WellShaped(net) && AllFit(net, data) then TrainPass(net, sig, data) else net
  }

  /** `train` is the epoch step iterated `epochs` times. */
  lemma {:induction false} TrainIsIteratedEpoch(net: Network, sig: Sigmoid, data: seq<Sample>, e: nat)
    requires WellShaped(net) && AllFit(net, data)
    ensures Train(net, sig, data, e) == Iterate(Epoch(sig, data), net, e)
    decreases e
  {
    if e > 0 {
      TrainStep(net, sig, data, e);
      var next := TrainPass(net, sig, data);
      assert Epoch(sig, data)(net) == next;
      TrainIsIteratedEpoch(next, sig, data, e - 1);
    }
  }

  /** `e1 + e2` epochs are `e1` epochs followed by `e2` epochs. */
  lemma TrainEpochsAdd(net: Network, sig: Sigmoid, data: seq<Sample>, e1: nat, e2: nat)
    requires WellShaped(net) && AllFit(net, data)
    ensures Train(net, sig, data, e1 + e2) == Train(Train(net, sig, data, e1), sig, data, e2)
  {
    var mid := Train(net, sig, data, e1);
    assert AllFit(mid, data);
    TrainIsIteratedEpoch(net, sig, data, e1 + e2);
    TrainIsIteratedEpoch(net, sig, data, e1);
    TrainIsIteratedEpoch(mid, sig, data, e2);
    IterateAdd(Epoch(sig, data), net, e1, e2);
  }

  /** One epoch peeled off: `e` epochs are a pass followed by `e - 1` epochs on data that still fits. */
  lemma TrainStep(net: Network, sig: Sigmoid, data: seq<Sample>, e: nat)
    requires WellShaped(net) && AllFit(net, data) && e > 0
    ensures AllFit(TrainPass(net, sig, data), data)
    ensures Train(net, sig, data, e) == Train(TrainPass(net, sig, data), sig, data, e - 1)
  {
    var next := TrainPass(net, sig, data);
    assert next.layerSizes == net.layerSizes;
  }

  /** Training on one sample for one epoch is exactly one `backpropagate`. */
  lemma TrainOnceIsBackpropagate(net: Network, sig: Sigmoid, s: Sample)
    requires WellShaped(net) && Fits(net, s)
    ensures AllFit(net, [s])
    ensures Train(net, sig, [s], 1) == Backpropagate(net, sig, s)
  {
    var once := TrainPass(net, sig, [s]);
    assert [s][1..] == [];
    assert once == TrainPass(Backpropagate(net, sig, s), sig, []);
    assert Train(net, sig, [s], 1) == Train(once, sig, [s], 0);
  }

  /** `biases[top][i] += error * dSigmoid(activation) * learningRate`: the update of an output neuron's bias. */
  function OutputBiasStep(b: real, error: real, activation: real, rate: real): real {
    b + error * DSigmoid(activation) * rate
  }

  /**
   One step moves bias `i` of the output layer by the error against the
   output `feedForward` gives, times the sigmoid derivative there, times the
   learning rate.
   */
  lemma BackpropagateOutputBias(net: Network, sig: Sigmoid, s: Sample, i: nat)
    requires WellShaped(net) && Fits(net, s) && |net.weights| > 0 && i < OutputSize(net)
    ensures var top, o := |net.weights| - 1, FeedForward(net, sig, s.inputs);
            && i < |Backpropagate(net, sig, s).biases[top]|
            && Backpropagate(net, sig, s).biases[top][i]
                 == OutputBiasStep(net.biases[top][i], s.targets[i] - o[i], o[i], net.learningRate)
  {
    var top := |net.weights| - 1;
    var acts := Trace(net, sig, 0, s.inputs);
    var errors := OutputErrors(acts[top + 1], s.targets);
    assert Backpropagate(net, sig, s) == Backward(net, acts, top + 1, errors);
    TopLayerBias(net, acts, errors, i);
    TrainingForwardPassIsFeedForward(net, sig, s.inputs);
    var o := FeedForward(net, sig, s.inputs);
    assert acts[top + 1][i] == o[i];
    assert errors[i] == s.targets[i] - o[i];
  }

  /** The bias rule of the first backward step, which updates the output layer, for neuron `i`. */
  lemma OutputBiasOfLayer(net: Network, acts: seq<seq<real>>, errors: seq<real>, i: nat)
    requires WellShaped(net) && |net.weights| > 0 && ActsFit(net, 0, acts)
    requires |errors| == net.layerSizes[|net.weights|] && i < |errors|
    ensures var top := |net.weights| - 1;
            BackwardLayer(net, acts, top, errors).net.biases[top][i]
              == OutputBiasStep(net.biases[top][i], errors[i], acts[top + 1][i], net.learningRate)
  {
    var top := |net.weights| - 1;
    var g := errors[i] * Derivative(net, top, acts[top + 1][i]);
    assert g == errors[i] * DSigmoid(acts[top + 1][i]);
    assert BackwardLayer(net, acts, top, errors).net.biases[top][i] == net.biases[top][i] + g * net.learningRate;
  }

  /** The backward loop started at the top leaves the output layer's bias as its first iteration set it. */
  lemma TopLayerBias(net: Network, acts: seq<seq<real>>, errors: seq<real>, i: nat)
    requires WellShaped(net) && |net.weights| > 0 && ActsFit(net, 0, acts)
    requires |errors| == net.layerSizes[|net.weights|] && i < |errors|
    ensures var top := |net.weights| - 1;
            && i < |Backward(net, acts, top + 1, errors).biases[top]|
            && Backward(net, acts, top + 1, errors).biases[top][i]
                 == OutputBiasStep(net.biases[top][i], errors[i], acts[top + 1][i], net.learningRate)
  {
    var top := |net.weights| - 1;
    var p := BackwardLayer(net, acts, top, errors);
    OutputBiasOfLayer(net, acts, errors, i);
    assert ActsFit(p.net, 0, acts);
    var rest := Backward(p.net, acts, top, p.errors);
    assert Backward(net, acts, top + 1, errors) == rest;
    assert rest.biases[top] == p.net.biases[top];
  }

  // ---------------------------------------------------------------------------
  // Construction, export and import
  // ---------------------------------------------------------------------------

  /** `createRandomArray(length)`: `Math.random() * 2 - 1` for each entry, the draws taken from `draws` from `from` on. */
  function CreateRandomArray(draws: nat -> real, from: nat, length: nat): (r: seq<real>)
    requires forall k :: 0.0 <= draws(k) < 1.0
    ensures |r| == length
    ensures forall k :: 0 <= k < length ==> -1.0 <= r[k] < 1.0
  {
    seq(length, k requires 0 <= k < length => draws(from + k) * 2.0 - 1.0)
  }

  /** Every weight and bias lies in [-1, 1). */
  predicate InUnitRange(vs: seq<seq<real>>) {
    forall l, k :: 0 <= l < |vs| && 0 <= k < |vs[l]| ==> -1.0 <= vs[l][k] < 1.0
  }

  /** Appending a row of values in [-1, 1) keeps every value in range. */
  lemma AppendInUnitRange(vs: seq<seq<real>>, v: seq<real>)
    requires InUnitRange(vs) && forall k :: 0 <= k < |v| ==> -1.0 <= v[k] < 1.0
    ensures InUnitRange(vs + [v])
  {
    var r := vs + [v];
    forall l, k | 0 <= l < |r| && 0 <= k < |r[l]| ensures -1.0 <= r[l][k] < 1.0 {
      if l < |vs| {
        assert r[l] == vs[l];
      }
    }
  }

  /** Adding the arrays of layer `i - 1` to the arrays of the layers below it shapes them for one more size. */
  lemma AppendLayerShape(sizes: seq<nat>, i: nat, ws: seq<seq<real>>, bs: seq<seq<real>>, w: seq<real>, b: seq<real>)
    requires 1 <= i < |sizes| && ShapedFor(sizes[..i], ws, bs)
    requires |w| == sizes[i] * sizes[i - 1] && |b| == sizes[i]
    ensures ShapedFor(sizes[..i + 1], ws + [w], bs + [b])
  {
    var s, s1 := sizes[..i], sizes[..i + 1];
    forall l | 0 <= l < |ws| + 1 ensures |(ws + [w])[l]| == s1[l + 1] * s1[l] && |(bs + [b])[l]| == s1[l + 1] {
      if l < |ws| {
        assert (ws + [w])[l] == ws[l] && (bs + [b])[l] == bs[l];
        assert s1[l + 1] == s[l + 1] && s1[l] == s[l];
      }
    }
  }

  /** The constructor with `initNetwork`: random weights then random biases, layer by layer. */
  method InitNetwork(layerSizes: seq<nat>, learningRate: real, draws: nat -> real) returns (net: Network)
    requires |layerSizes| >= 1
    requires forall k :: 0.0 <= draws(k) < 1.0
    ensures WellShaped(net) && net.layerSizes == layerSizes && net.learningRate == learningRate
    ensures InUnitRange(net.weights) && InUnitRange(net.biases)
  {
    var weights: seq<seq<real>> := [];
    var biases: seq<seq<real>> := [];
    var used: nat := 0;
    var i := 1;
    while i < |layerSizes|
      invariant 1 <= i <= |layerSizes|
      invariant ShapedFor(layerSizes[..i], weights, biases)
      invariant InUnitRange(weights) && InUnitRange(biases)
    {
      var w := CreateRandomArray(draws, used, layerSizes[i] * layerSizes[i - 1]);
      used := used + |w|;
      var b := CreateRandomArray(draws, used, layerSizes[i]);
      used := used + |b|;
      AppendInUnitRange(weights, w);
      AppendInUnitRange(biases, b);
      AppendLayerShape(layerSizes, i, weights, biases, w, b);
      weights := weights + [w];
      biases := biases + [b];
      i := i + 1;
    }
    assert layerSizes[..i] == layerSizes;
    net := Network(layerSizes, weights, biases, learningRate);
  }

  /** `importState(state)`: replaces weights and biases only when both fields are present; lengths are not checked. */
  function ImportState(net: Network, s: Snapshot): (r: Network)
    ensures r.layerSizes == net.layerSizes && r.learningRate == net.learningRate
    ensures s.weights.None? || s.biases.None? ==> r == net
    ensures s.weights.Some? && s.biases.Some? ==>
              r.weights == s.weights.value && r.biases == s.biases.value
              && (WellShaped(r) <==> ShapedFor(net.layerSizes, s.weights.value, s.biases.value))
  {
    if s.weights.Some? && s.biases.Some? then net.(weights := s.weights.value, biases := s.biases.value)
    else net
  }

  /** `exportState()`: importing the exported state into any network of the same sizes and rate reproduces `net`. */
  function ExportState(net: Network): (s: Snapshot)
    ensures s.weights.Some? && s.biases.Some?
    ensures ImportState(net, s) == net
    ensures forall other: Network :: other.layerSizes == net.layerSizes && other.learningRate == net.learningRate ==>
              ImportState(other, s) == net
  {
    Snapshot(Some(net.weights), Some(net.biases))
  }
}
