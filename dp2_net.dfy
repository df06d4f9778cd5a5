/** The dp2 network: per layer transition a row-major weight vector (`nOut` rows
    of `nIn` weights) and a bias vector, two scratch buffers of the widest
    layer's size, and the activation applied in a separate pass after the sums. */
module Dp2 {
  import opened NetModel

  /** The parameters of one layer transition. */
  datatype LayerParameters = LayerParameters(weights: seq<real>, biases: seq<real>)

  /** `p` holds `nOut` rows of `nIn` weights and `nOut` biases. */
  predicate LayerFits(p: LayerParameters, nIn: nat, nOut: nat)
  {
    |p.weights| == Span(nOut, nIn) && |p.biases| == nOut
  }

  /** One correctly sized `LayerParameters` per layer transition. */
  predicate LayersFit(arch: Arch, P: seq<LayerParameters>)
  {
    |arch| >= 1 && |P| == |arch| - 1 &&
    forall l :: 0 <= l < |P| ==> LayerFits(P[l], arch[l], arch[l + 1])
  }

  /** Row `r` of a row-major weight vector: the weights `r * nIn + c`, `c < nIn`. */
  function WeightRow(w: seq<real>, nIn: nat, nOut: nat, r: nat): (row: seq<real>)
    requires r < nOut && |w| == Span(nOut, nIn)
    ensures |row| == nIn
    ensures forall c :: 0 <= c < nIn ==> Span(r, nIn) + c < |w| && row[c] == w[Span(r, nIn) + c]
  {
    SpanMonotone(r + 1, nOut, nIn);
    w[Span(r, nIn) .. Span(r + 1, nIn)]
  }

  /** A layer transition as the augmented matrix of the shared model: row `r` is
      the weight row followed by bias `r`. */
  function LayerMatrix(p: LayerParameters, nIn: nat, nOut: nat): (m: Matrix)
    requires LayerFits(p, nIn, nOut)
    ensures |m| == nOut
    ensures forall r :: 0 <= r < nOut ==> |m[r]| == nIn + 1
  {
    seq(nOut, (r: int) requires 0 <= r < nOut => WeightRow(p.weights, nIn, nOut, r) + [p.biases[r]])
  }

  /** Cell `(r, c)` of the augmented matrix: weight `r * nIn + c` (that is,
      `Span(r, nIn) + c`) for `c < nIn`, bias `r` in the last column. */
  lemma LayerMatrixAt(p: LayerParameters, nIn: nat, nOut: nat, r: nat, c: nat)
    requires LayerFits(p, nIn, nOut) && r < nOut && c <= nIn
    ensures c < nIn ==> Span(r, nIn) + c < |p.weights| &&
                        LayerMatrix(p, nIn, nOut)[r][c] == p.weights[Span(r, nIn) + c]
    ensures c == nIn ==> LayerMatrix(p, nIn, nOut)[r][c] == p.biases[r]
  {
    var row := WeightRow(p.weights, nIn, nOut, r);
    var m := LayerMatrix(p, nIn, nOut);
    assert m[r] == row + [p.biases[r]];
    if c < nIn {
      assert m[r][c] == row[c];
    } else {
      assert m[r][c] == p.biases[r];
    }
  }

  /** Row `r` of the augmented matrix is weight row `r` followed by bias `r`. */
  lemma LayerRow(p: LayerParameters, nIn: nat, nOut: nat, r: nat)
    requires LayerFits(p, nIn, nOut) && r < nOut
    ensures LayerMatrix(p, nIn, nOut)[r][..nIn] == WeightRow(p.weights, nIn, nOut, r)
    ensures LayerMatrix(p, nIn, nOut)[r][nIn] == p.biases[r]
  {
    var row := WeightRow(p.weights, nIn, nOut, r);
    assert LayerMatrix(p, nIn, nOut)[r] == row + [p.biases[r]];
    assert (row + [p.biases[r]])[..nIn] == row;
  }

  /** All layer transitions as augmented matrices, in order. */
  function ToMatrices(arch: Arch, P: seq<LayerParameters>): (L: seq<Matrix>)
    requires LayersFit(arch, P)
    ensures Shaped(arch, L)
    decreases |P|
  {
    if |P| == 0 then []
    else
      ShapedAppend(arch, ToMatrices(arch[..|arch| - 1], P[..|P| - 1]),
                   LayerMatrix(P[|P| - 1], arch[|arch| - 2], arch[|arch| - 1]));
      ToMatrices(arch[..|arch| - 1], P[..|P| - 1]) + [LayerMatrix(P[|P| - 1], arch[|arch| - 2], arch[|arch| - 1])]
  }

  /** Layer `l` of the augmented form is the matrix of `P[l]`. */
  lemma {:induction false} ToMatricesAt(arch: Arch, P: seq<LayerParameters>, l: nat)
    requires LayersFit(arch, P) && l < |P|
    ensures ToMatrices(arch, P)[l] == LayerMatrix(P[l], arch[l], arch[l + 1])
    decreases |P|
  {
    if l < |P| - 1 {
      ToMatricesAt(arch[..|arch| - 1], P[..|P| - 1], l);
    }
  }

  /** The number of weights stored in the layers before `l`: where the weights of
      layer `l` start in the stream of random draws. */
  function WeightsBefore(P: seq<LayerParameters>, l: nat): nat
    requires l <= |P|
  {
    if l == 0 then 0 else WeightsBefore(P, l - 1) + |P[l - 1].weights|
  }

  /** For correctly sized layers the weights before layer `l` are those of the
      first `l` transitions, so a weight's draw index is its `WeightIndex`. */
  lemma {:induction false} WeightsBeforeFit(arch: Arch, P: seq<LayerParameters>, l: nat)
    requires LayersFit(arch, P) && l <= |P|
    ensures WeightsBefore(P, l) == TotalWeights(arch[..l + 1])
    decreases l
  {
    if l > 0 {
      WeightsBeforeFit(arch, P, l - 1);
      TotalWeightsStep(arch, l - 1);
    }
  }

  class SimpleNeuralNet {
    const mArchitecture: Arch
    var mLayerParams: seq<LayerParameters>
    const mMaxLayerSize: nat

    ghost predicate Valid()
      reads this
    {
      |mArchitecture| >= 2 && |mLayerParams| == |mArchitecture| - 1 &&
      mMaxLayerSize == MaxOf(mArchitecture)
    }

    /** The throwing constructor: no network for fewer than two layers, otherwise
        a fresh network whose parameters are all zero. */
    static method Create(architecture: Arch) returns (net: SimpleNeuralNet?)
      ensures net == null <==> |architecture| < 2
      ensures net != null ==> fresh(net) && net.Valid() && net.mArchitecture == architecture
      ensures net != null ==> LayersFit(architecture, net.mLayerParams) && AllZero(net.mLayerParams)
    {
      if |architecture| < 2 {
        return null;
      }
      net := new SimpleNeuralNet(architecture);
    }

    /** One zero-filled `LayerParameters` per transition, sized from the
        architecture, and the widest layer. */
    constructor (architecture: Arch)
      requires |architecture| >= 2
      ensures Valid() && mArchitecture == architecture
      ensures LayersFit(architecture, mLayerParams) && AllZero(mLayerParams)
    {
      mArchitecture := architecture;
      var layers: seq<LayerParameters> := [];
      for i := 0 to |architecture| - 1
        invariant |layers| == i
        invariant forall l :: 0 <= l < i ==> LayerFits(layers[l], architecture[l], architecture[l + 1])
        invariant AllZero(layers)
      {
        var prevLayerSize := architecture[i];
        var currentLayerSize := architecture[i + 1];
        LayerParamsIsProduct(prevLayerSize, currentLayerSize);
        var layer := LayerParameters(seq(prevLayerSize * currentLayerSize, _ => 0.0),
                                     seq(currentLayerSize, _ => 0.0));
        layers := layers + [layer];
      }
      mLayerParams := layers;
      mMaxLayerSize := MaxOf(architecture);
    }

    /** The copy constructor: the same architecture and a copy of the parameters. */
    constructor Copy(other: SimpleNeuralNet)
      requires other.Valid()
      ensures Valid()
      ensures mArchitecture == other.mArchitecture && mLayerParams == other.mLayerParams
    {
      mArchitecture := other.mArchitecture;
      mLayerParams := other.mLayerParams;
      mMaxLayerSize := other.mMaxLayerSize;
    }

    /** Copy assignment between networks of the same architecture; assigning a
        network to itself changes nothing. */
    method Assign(other: SimpleNeuralNet)
      requires Valid() && other.Valid() && mArchitecture == other.mArchitecture
      modifies this
      ensures Valid()
      ensures mLayerParams == old(other.mLayerParams)
    {
      if this == other {
        return;
      }
      mLayerParams := other.mLayerParams;
    }

    method GetTotalParameterCount() returns (n: nat)
      ensures n == TotalParams(mArchitecture)
    {
      n := CalcTotalParameters(mArchitecture);
    }

    /** Replaces the parameters; only the number of transitions is checked. */
    method SetLayerParameters(layerParams: seq<LayerParameters>)
      requires Valid() && |layerParams| == |mLayerParams|
      modifies this
      ensures Valid() && mLayerParams == layerParams
    {
      mLayerParams := layerParams;
    }

    /** Xavier-uniform initialisation: layer by layer, every weight drawn from
        `[-limit, limit]` with the layer's limit, every bias set to zero. Draw
        number `i` of the generator is given as the canonical value `u(i)`. */
    method InitializeRandomParameters(sqrt: real -> real, u: nat -> real)
      requires Valid()
      modifies this
      ensures Valid()
      ensures |mLayerParams| == |old(mLayerParams)|
      ensures forall l :: 0 <= l < |mLayerParams| ==>
                XavierLayer(old(mLayerParams)[l], mLayerParams[l],
                            XavierLimit(sqrt, mArchitecture[l], mArchitecture[l + 1]), u,
                            WeightsBefore(old(mLayerParams), l))
    {
      var arch := mArchitecture;
      var layers := mLayerParams;
      ghost var P0 := mLayerParams;
      var drawn := 0;
      for layerIdx := 0 to |layers|
        invariant |layers| == |P0| == |arch| - 1
        invariant drawn == WeightsBefore(P0, layerIdx)
        invariant layers[layerIdx..] == P0[layerIdx..]
        invariant ReinitialisedUpTo(arch, P0, layers, sqrt, u, layerIdx)
      {
        var fanIn := arch[layerIdx];
        var fanOut := arch[layerIdx + 1];
        var limit := XavierLimit(sqrt, fanIn, fanOut);
        assert layers[layerIdx] == layers[layerIdx..][0];
        var layer := layers[layerIdx];
        var w := DrawWeights(layer.weights, limit, u, drawn);
        var b := ZeroBiases(layer.biases);
        ReinitialisedStep(arch, P0, layers, sqrt, u, layerIdx, LayerParameters(w, b));
        assert layers[layerIdx := LayerParameters(w, b)][layerIdx + 1..] == layers[layerIdx + 1..];
        layers := layers[layerIdx := LayerParameters(w, b)];
        drawn := drawn + |w|;
      }
      mLayerParams := layers;
    }

    /** Writes to `pOutputs` the network's response to the first `arch[0]` inputs:
        the reference pass over the augmented form of the layers. The parameters
        are not written (the method is `const`). */
    method FeedForward(pInputs: array<real>, pOutputs: array<real>)
      requires Valid() && LayersFit(mArchitecture, mLayerParams)
      requires pInputs.Length >= mArchitecture[0]
      requires pOutputs.Length >= mArchitecture[|mArchitecture| - 1]
      modifies pOutputs
      ensures pOutputs[..mArchitecture[|mArchitecture| - 1]] ==
              Forward(mArchitecture, ToMatrices(mArchitecture, mLayerParams), old(pInputs[..mArchitecture[0]]))
      ensures pOutputs[mArchitecture[|mArchitecture| - 1]..] ==
              old(pOutputs[mArchitecture[|mArchitecture| - 1]..])
    {
      var arch := mArchitecture;
      ghost var L := ToMatrices(arch, mLayerParams);
      ghost var x := pInputs[..arch[0]];

      var lay0_outs := new real[mMaxLayerSize];
      var lay1_outs := new real[mMaxLayerSize];

      CopyPrefix(pInputs, lay0_outs, arch[0]);
      ForwardPrefixZero(arch, L, x);

      for i := 0 to |mLayerParams|
        invariant fresh(lay0_outs) && fresh(lay1_outs) && lay0_outs != lay1_outs
        invariant lay0_outs.Length == lay1_outs.Length == mMaxLayerSize
        invariant pOutputs[..] == old(pOutputs[..])
        invariant lay0_outs[..arch[i]] == ForwardPrefix(arch, L, x, i)
      {
        ForwardPrefixStep(arch, L, x, i);
        ToMatricesAt(arch, mLayerParams, i);
        ComputeLayer(mLayerParams[i], arch[i], arch[i + 1], lay0_outs, lay1_outs);
        lay0_outs, lay1_outs := lay1_outs, lay0_outs;
      }
      ForwardPrefixAll(arch, L, x);
      CopyPrefix(lay0_outs, pOutputs, arch[|arch| - 1]);
    }
  }

  /** The first `n` Xavier samples of a layer: draw `first + j` mapped to
      `[-limit, limit]`, in draw order. */
  function Samples(limit: real, u: nat -> real, first: nat, n: nat): (s: seq<real>)
    ensures |s| == n
  {
    if n == 0 then [] else Samples(limit, u, first, n - 1) + [UniformSample(-limit, limit, u(first + n - 1))]
  }

  /** Sample `j` is draw number `first + j` mapped to `[-limit, limit]`. */
  lemma {:induction false} SamplesAt(limit: real, u: nat -> real, first: nat, n: nat, j: nat)
    requires j < n
    ensures Samples(limit, u, first, n)[j] == UniformSample(-limit, limit, u(first + j))
    decreases n
  {
    if j < n - 1 {
      SamplesAt(limit, u, first, n - 1, j);
    }
  }

  /** `after` is `before` re-initialised: the same sizes, the weights the samples
      of the draws from `first` on, every bias zero. */
  predicate XavierLayer(before: LayerParameters, after: LayerParameters, limit: real, u: nat -> real, first: nat)
  {
    after.weights == Samples(limit, u, first, |before.weights|) && |after.biases| == |before.biases| &&
    (forall j :: 0 <= j < |after.biases| ==> after.biases[j] == 0.0)
  }

  /** The first `k` layers of `layers` are the Xavier re-initialisation of those
      of `P0`, each drawing from where the weights before it end. */
  ghost predicate ReinitialisedUpTo(arch: Arch, P0: seq<LayerParameters>, layers: seq<LayerParameters>,
                                    sqrt: real -> real, u: nat -> real, k: nat)
    requires |layers| == |P0| == |arch| - 1 && k <= |layers|
  {
    forall l :: 0 <= l < k ==>
      XavierLayer(P0[l], layers[l], XavierLimit(sqrt, arch[l], arch[l + 1]), u, WeightsBefore(P0, l))
  }

  /** Re-initialising layer `k` extends the re-initialised prefix by one layer. */
  lemma ReinitialisedStep(arch: Arch, P0: seq<LayerParameters>, layers: seq<LayerParameters>,
                          sqrt: real -> real, u: nat -> real, k: nat, next: LayerParameters)
    requires |layers| == |P0| == |arch| - 1 && k < |layers|
    requires ReinitialisedUpTo(arch, P0, layers, sqrt, u, k)
    requires XavierLayer(P0[k], next, XavierLimit(sqrt, arch[k], arch[k + 1]), u, WeightsBefore(P0, k))
    ensures ReinitialisedUpTo(arch, P0, layers[k := next], sqrt, u, k + 1)
    ensures WeightsBefore(P0, k + 1) == WeightsBefore(P0, k) + |next.weights|
  {
  }

  /** With draws in [0, 1] and a non-negative square root, a re-initialised layer
      has every weight within the layer's limit. */
  lemma XavierLayerInRange(sqrt: real -> real, before: LayerParameters, after: LayerParameters,
                           fanIn: nat, fanOut: nat, u: nat -> real, first: nat)
    requires forall z :: sqrt(z) >= 0.0
    requires forall i :: 0.0 <= u(i) <= 1.0
    requires XavierLayer(before, after, XavierLimit(sqrt, fanIn, fanOut), u, first)
    ensures forall j :: 0 <= j < |after.weights| ==>
              -XavierLimit(sqrt, fanIn, fanOut) <= after.weights[j] <= XavierLimit(sqrt, fanIn, fanOut)
  {
    var limit := XavierLimit(sqrt, fanIn, fanOut);
    forall j | 0 <= j < |after.weights|
      ensures -limit <= after.weights[j] <= limit
    {
      SamplesAt(limit, u, first, |before.weights|, j);
      UniformSampleInRange(limit, u(first + j));
    }
  }

  /** The weight loop of `InitializeRandomParameters`: the weights are overwritten
      in place by the samples of the draws from `first` on. */
  method DrawWeights(weights: seq<real>, limit: real, u: nat -> real, first: nat) returns (w: seq<real>)
    ensures w == Samples(limit, u, first, |weights|)
  {
    w := weights;
    for j := 0 to |w|
      invariant |w| == |weights|
      invariant w[..j] == Samples(limit, u, first, j)
    {
      var x := UniformSample(-limit, limit, u(first + j));
      assert w[j := x][..j + 1] == w[..j] + [x];
      w := w[j := x];
    }
    assert w[..|w|] == w;
  }

  /** The bias loop of `InitializeRandomParameters`: every bias becomes zero. */
  method ZeroBiases(biases: seq<real>) returns (b: seq<real>)
    ensures |b| == |biases|
    ensures forall j :: 0 <= j < |b| ==> b[j] == 0.0
  {
    b := biases;
    for j := 0 to |b|
      invariant |b| == |biases|
      invariant forall i :: 0 <= i < j ==> b[i] == 0.0
    {
      b := b[j := 0.0];
    }
  }

  /** One pass of the layer loop of `FeedForward`: the sums of one layer
      transition into `lay1`, then the activation over them. */
  method ComputeLayer(layer: LayerParameters, prevLayerSize: nat, currentLayerSize: nat,
                      lay0: array<real>, lay1: array<real>)
    requires LayerFits(layer, prevLayerSize, currentLayerSize)
    requires lay0 != lay1 && lay0.Length >= prevLayerSize && lay1.Length >= currentLayerSize
    modifies lay1
    ensures lay1[..currentLayerSize] == LayerOut(LayerMatrix(layer, prevLayerSize, currentLayerSize), lay0[..prevLayerSize])
  {
    ghost var m := LayerMatrix(layer, prevLayerSize, currentLayerSize);
    ghost var x := lay0[..prevLayerSize];
    for n1 := 0 to currentLayerSize
      invariant forall j :: 0 <= j < n1 ==> lay1[j] == Affine(m[j], x)
    {
      var sum := WeightedSum(layer, prevLayerSize, currentLayerSize, n1, lay0);
      lay1[n1] := sum;
    }
    ActivateLayer(lay1, currentLayerSize);
    assert forall j :: 0 <= j < currentLayerSize ==> lay1[j] == Neuron(m[j], x);
  }

  /** The activation loop of `FeedForward`: the first `n` cells of `lay1` replaced
      by their ReLU. */
  method ActivateLayer(lay1: array<real>, n: nat)
    requires n <= lay1.Length
    modifies lay1
    ensures forall j :: 0 <= j < n ==> lay1[j] == Relu(old(lay1[j]))
    ensures forall j :: 0 <= j < n ==> lay1[j] >= 0.0
  {
    for n1 := 0 to n
      invariant forall j :: 0 <= j < n1 ==> lay1[j] == Relu(old(lay1[j]))
      invariant forall j :: n1 <= j < n ==> lay1[j] == old(lay1[j])
    {
      lay1[n1] := Relu(lay1[n1]);
    }
  }

  /** The sum of neuron `n1`: its weighted inputs, the weight of input `n0` read at
      `n1 * prevLayerSize + n0`, plus its bias. */
  method WeightedSum(layer: LayerParameters, prevLayerSize: nat, currentLayerSize: nat, n1: nat, lay0: array<real>)
    returns (sum: real)
    requires LayerFits(layer, prevLayerSize, currentLayerSize) && n1 < currentLayerSize
    requires lay0.Length >= prevLayerSize
    ensures sum == Affine(LayerMatrix(layer, prevLayerSize, currentLayerSize)[n1], lay0[..prevLayerSize])
  {
    var weights := layer.weights;
    var biases := layer.biases;
    // The row offset `n1 * prevLayerSize`, taken out of the loop.
    var rowStart := n1 * prevLayerSize;
    SpanIsProduct(n1, prevLayerSize);
    ghost var w := WeightRow(weights, prevLayerSize, currentLayerSize, n1);
    if prevLayerSize > 0 {
      ghost var last := w[prevLayerSize - 1];
      assert Span(n1, prevLayerSize) + (prevLayerSize - 1) < |weights|;
    }
    sum := RowDot(lay0, weights, rowStart, prevLayerSize);
    assert weights[rowStart..rowStart + prevLayerSize] == w;
    LayerRow(layer, prevLayerSize, currentLayerSize, n1);
    sum := sum + biases[n1];
  }

  /** The inner loop of the sums: the first `n` layer values times the `n` weights
      from `rowStart` on, added up in order. */
  method RowDot(lay0: array<real>, weights: seq<real>, rowStart: nat, n: nat) returns (sum: real)
    requires n <= lay0.Length && rowStart + n <= |weights|
    ensures sum == Dot(lay0[..n], weights[rowStart..rowStart + n])
  {
    ghost var x := lay0[..n];
    ghost var w := weights[rowStart..rowStart + n];
    sum := 0.0;
    for n0 := 0 to n
      invariant sum == Dot(x[..n0], w[..n0])
    {
      DotStep(x, w, n0);
      assert lay0[n0] == x[n0] && weights[rowStart + n0] == w[n0];
      sum := sum + lay0[n0] * weights[rowStart + n0];
    }
    assert x[..n] == x && w[..n] == w;
  }

  /** Every weight and every bias is zero. */
  predicate AllZero(P: seq<LayerParameters>)
  {
    AllZeroBiases(P) &&
    forall l, j :: 0 <= l < |P| && 0 <= j < |P[l].weights| ==> P[l].weights[j] == 0.0
  }

  /** Every bias is zero. */
  predicate AllZeroBiases(P: seq<LayerParameters>)
  {
    forall l, j :: 0 <= l < |P| && 0 <= j < |P[l].biases| ==> P[l].biases[j] == 0.0
  }
}
