/** The test fixture that loads one flat parameter buffer and one input vector into
    every network representation and compares their outputs. The flat buffer is
    read in a single order (layers, then rows, then the row's weights followed by
    its bias), which is the order `Unflatten` reads it in. */
module Fixtures {
  import opened NetModel
  import Dp2
  import Tc1
  import CommonNet
  import Lander03Net

  /** The innermost loop of `setParams_dp2`: `nIn` consecutive buffer values,
      starting at `src`, stored at `rowStart`, `rowStart + 1`, ... of the weights. */
  method FillRow(weights: seq<real>, rowStart: nat, nIn: nat, params: seq<real>, src: nat) returns (w: seq<real>)
    requires rowStart + nIn <= |weights| && src + nIn <= |params|
    ensures |w| == |weights|
    ensures forall j :: rowStart <= j < rowStart + nIn ==> w[j] == params[src + (j - rowStart)]
    ensures forall j :: 0 <= j < |w| && !(rowStart <= j < rowStart + nIn) ==> w[j] == weights[j]
  {
    w := weights;
    var paramIdx := src;
    for c := 0 to nIn
      invariant |w| == |weights|
      invariant paramIdx == src + c
      invariant forall j :: rowStart <= j < rowStart + c ==> w[j] == params[src + (j - rowStart)]
      invariant forall j :: 0 <= j < |w| && !(rowStart <= j < rowStart + c) ==> w[j] == weights[j]
    {
      w := w[rowStart + c := params[paramIdx]];
      paramIdx := paramIdx + 1;
    }
  }

  /** The first `r` rows of a dp2 layer hold the first `r` rows of the block `s`
      read as an augmented matrix: weights in the first `nIn` columns, the bias in
      the last. */
  ghost predicate RowsFrom(weights: seq<real>, biases: seq<real>, nIn: nat, nOut: nat, s: seq<real>, r: nat)
    requires |weights| == Span(nOut, nIn) && |biases| == nOut && |s| >= Span(nOut, nIn + 1) && r <= nOut
  {
    (forall i, c :: 0 <= i < r && 0 <= c < nIn ==>
       Dp2.WeightRow(weights, nIn, nOut, i)[c] == UnflattenMatrix(s, nOut, nIn + 1)[i][c]) &&
    (forall i :: 0 <= i < r ==> biases[i] == UnflattenMatrix(s, nOut, nIn + 1)[i][nIn])
  }

  /** One pass of the row loop of `setParams_dp2`: row `r`'s weights go to
      `weights[r * nIn + c]`, its bias to `biases[r]`, read from the block `s` at
      `Span(r, nIn + 1)`; the rows before stay as they were. */
  method FillLayerRow(weights: seq<real>, biases: seq<real>, nIn: nat, nOut: nat, s: seq<real>, r: nat)
    returns (w: seq<real>, b: seq<real>)
    requires |weights| == Span(nOut, nIn) && |biases| == nOut && |s| >= Span(nOut, nIn + 1) && r < nOut
    requires RowsFrom(weights, biases, nIn, nOut, s, r)
    ensures |w| == Span(nOut, nIn) && |b| == nOut
    ensures RowsFrom(w, b, nIn, nOut, s, r + 1)
  {
    RowBound(r, nIn, nOut, nIn + 1);
    SpanMonotone(r + 1, nOut, nIn);
    SpanIsProduct(r, nIn);
    var rowStart := r * nIn;
    var paramIdx := Span(r, nIn + 1);
    w := FillRow(weights, rowStart, nIn, s, paramIdx);
    b := biases[r := s[paramIdx + nIn]];
    RowsFromStep(weights, biases, w, b, nIn, nOut, s, r);
  }

  /** Storing row `r` of the block (its weights at `Span(r, nIn)`, its bias at
      `r`) extends the rows taken from the block by one. */
  lemma RowsFromStep(weights: seq<real>, biases: seq<real>, w: seq<real>, b: seq<real>,
                     nIn: nat, nOut: nat, s: seq<real>, r: nat)
    requires |weights| == Span(nOut, nIn) && |biases| == nOut && |s| >= Span(nOut, nIn + 1) && r < nOut
    requires Span(r, nIn) + nIn <= |weights| && Span(r, nIn + 1) + nIn < |s|
    requires RowsFrom(weights, biases, nIn, nOut, s, r)
    requires |w| == |weights|
    requires forall j :: Span(r, nIn) <= j < Span(r, nIn) + nIn ==> w[j] == s[Span(r, nIn + 1) + (j - Span(r, nIn))]
    requires forall j :: 0 <= j < |w| && !(Span(r, nIn) <= j < Span(r, nIn) + nIn) ==> w[j] == weights[j]
    requires b == biases[r := s[Span(r, nIn + 1) + nIn]]
    ensures RowsFrom(w, b, nIn, nOut, s, r + 1)
  {
    ghost var U := UnflattenMatrix(s, nOut, nIn + 1);
    forall i, c | 0 <= i < r + 1 && 0 <= c < nIn
      ensures Dp2.WeightRow(w, nIn, nOut, i)[c] == U[i][c]
    {
      if i < r {
        RowBound(i, c, r, nIn);
        assert Dp2.WeightRow(weights, nIn, nOut, i)[c] == U[i][c];
      } else {
        UnflattenMatrixAt(s, nOut, nIn + 1, r, c);
      }
    }
    UnflattenMatrixAt(s, nOut, nIn + 1, r, nIn);
  }

  /** One layer of `setParams_dp2`: for every row `r`, the next `nIn` buffer values
      go to `weights[r * nIn + c]` and the one after to `biases[r]`. The layer's
      augmented matrix is then the block of the buffer that starts at `start`;
      returns the index just past that block. */
  method FillLayer(layer: Dp2.LayerParameters, nIn: nat, nOut: nat, params: seq<real>, start: nat)
    returns (filled: Dp2.LayerParameters, next: nat)
    requires Dp2.LayerFits(layer, nIn, nOut) && start + Span(nOut, nIn + 1) <= |params|
    ensures Dp2.LayerFits(filled, nIn, nOut)
    ensures next == start + Span(nOut, nIn + 1)
    ensures Dp2.LayerMatrix(filled, nIn, nOut) == UnflattenMatrix(params[start..], nOut, nIn + 1)
  {
    var block := params[start..];
    var weights := layer.weights;
    var biases := layer.biases;
    for r := 0 to nOut
      invariant |weights| == Span(nOut, nIn) && |biases| == nOut
      invariant RowsFrom(weights, biases, nIn, nOut, block, r)
    {
      weights, biases := FillLayerRow(weights, biases, nIn, nOut, block, r);
    }
    filled := Dp2.LayerParameters(weights, biases);
    next := start + Span(nOut, nIn + 1);
    LayerFromRows(filled, nIn, nOut, block);
  }

  /** A layer whose rows all come from the block is the block read as a matrix. */
  lemma LayerFromRows(p: Dp2.LayerParameters, nIn: nat, nOut: nat, s: seq<real>)
    requires Dp2.LayerFits(p, nIn, nOut) && |s| >= Span(nOut, nIn + 1)
    requires RowsFrom(p.weights, p.biases, nIn, nOut, s, nOut)
    ensures Dp2.LayerMatrix(p, nIn, nOut) == UnflattenMatrix(s, nOut, nIn + 1)
  {
    var M := Dp2.LayerMatrix(p, nIn, nOut);
    var U := UnflattenMatrix(s, nOut, nIn + 1);
    forall r | 0 <= r < nOut ensures M[r] == U[r] {
      forall c | 0 <= c <= nIn ensures M[r][c] == U[r][c] {
        Dp2.LayerMatrixAt(p, nIn, nOut, r, c);
        if c < nIn {
          assert Dp2.WeightRow(p.weights, nIn, nOut, r)[c] == U[r][c];
        }
      }
    }
  }

  /** The first `l` dp2 layers, read as augmented matrices, are the first `l`
      matrices of `U`. */
  ghost predicate LayersFrom(arch: Arch, P: seq<Dp2.LayerParameters>, U: seq<Matrix>, l: nat)
    requires Dp2.LayersFit(arch, P) && |U| == |P| && l <= |P|
  {
    forall i :: 0 <= i < l ==> Dp2.LayerMatrix(P[i], arch[i], arch[i + 1]) == U[i]
  }

  /** `setParams_dp2`: every layer filled in turn from the buffer. The buffer is
      consumed exactly (`paramIdx` ends at the parameter count) and the layers, read
      as augmented matrices, are the unflattened buffer. */
  method SetParamsDp2(arch: Arch, layers: seq<Dp2.LayerParameters>, params: seq<real>)
    returns (filled: seq<Dp2.LayerParameters>, paramIdx: nat)
    requires Dp2.LayersFit(arch, layers) && |params| >= TotalParams(arch)
    ensures Dp2.LayersFit(arch, filled)
    ensures paramIdx == TotalParams(arch)
    ensures Dp2.ToMatrices(arch, filled) == Unflatten(arch, params)
  {
    ghost var U := Unflatten(arch, params);
    filled := layers;
    paramIdx := 0;
    for l := 0 to |arch| - 1
      invariant Dp2.LayersFit(arch, filled)
      invariant paramIdx == Offset(arch, l)
      invariant LayersFrom(arch, filled, U, l)
    {
      UnflattenLayer(arch, params, l);
      OffsetStep(arch, l);
      ghost var before := filled;
      var layer;
      layer, paramIdx := FillLayer(filled[l], arch[l], arch[l + 1], params, paramIdx);
      filled := filled[l := layer];
      LayersFromStep(arch, before, filled, U, l);
    }
    OffsetLast(arch);
    var L := Dp2.ToMatrices(arch, filled);
    forall l | 0 <= l < |L| ensures L[l] == U[l] {
      Dp2.ToMatricesAt(arch, filled, l);
    }
  }

  lemma LayersFromStep(arch: Arch, before: seq<Dp2.LayerParameters>, after: seq<Dp2.LayerParameters>,
                       U: seq<Matrix>, l: nat)
    requires Dp2.LayersFit(arch, before) && Dp2.LayersFit(arch, after) && |U| == |before| && l < |before|
    requires LayersFrom(arch, before, U, l)
    requires after == before[l := after[l]]
    requires Dp2.LayerMatrix(after[l], arch[l], arch[l + 1]) == U[l]
    ensures LayersFrom(arch, after, U, l + 1)
  {
    forall i | 0 <= i < l + 1 ensures Dp2.LayerMatrix(after[i], arch[i], arch[i + 1]) == U[i] {
      if i < l {
        assert after[i] == before[i];
      }
    }
  }

  /** `setInputs_tc1` and `setInputs_cur`: the inputs copied element by element. */
  method CopyInputs(inputs: seq<real>) returns (copy: seq<real>)
    ensures copy == inputs
  {
    copy := [];
    for i := 0 to |inputs|
      invariant copy == inputs[..i]
    {
      copy := copy + [inputs[i]];
    }
  }

  /** The value `params[paramIdx++]` a filling callback returns for the cell visited
      after `k` others. */
  function NextParam(params: seq<real>, k: nat): real
  {
    if k < |params| then params[k] else 0.0
  }

  /** `setParams_tc1`: `fillNetParams` with a callback that returns the next buffer
      value. The matrix pack is the unflattened buffer. */
  method SetParamsTc1(arch: Arch, netParam: seq<Matrix>, params: seq<real>) returns (filled: seq<Matrix>)
    requires Shaped(arch, netParam) && |params| >= TotalParams(arch)
    ensures filled == Unflatten(arch, params)
  {
    filled := Tc1.FillNetParams(arch, (k: nat, l: nat, r: nat, c: nat) => NextParam(params, k), netParam);
    forall l, r, c | 0 <= l < |filled| && 0 <= r < |filled[l]| && 0 <= c < |filled[l][r]|
      ensures filled[l][r][c] == params[FlatIndex(arch, l, r, c)]
    {
    }
    FilledFromBuffer(arch, params, filled);
  }

  /** `setParams_cur`: `foreachParameters` with a callback that stores the next
      buffer value in each cell. The network then holds the unflattened buffer. */
  method SetParamsCur(net: CommonNet.SimpleNeuralNet, params: seq<real>)
    requires net.Valid() && |params| >= TotalParams(net.netArch)
    modifies net
    ensures net.Valid()
    ensures net.mParams == Unflatten(net.netArch, params)
  {
    var visits := net.ForeachParameters((k: nat, l: nat, r: nat, c: nat, v: real) => NextParam(params, k));
    FilledFromBuffer(net.netArch, params, net.mParams);
  }

  /** The fixture's state: one network per representation, with its own copy of
      the inputs. */
  class FeedForwardTest {
    const netArch: Arch
    var tc1Inputs: seq<real>
    var tc1Params: seq<Matrix>
    const dp2Net: Dp2.SimpleNeuralNet
    var dp2Inputs: seq<real>
    const curNet: CommonNet.SimpleNeuralNet
    var curInputs: seq<real>

    ghost predicate Valid()
      reads this, dp2Net, curNet
    {
      |netArch| >= 2 && Shaped(netArch, tc1Params) &&
      dp2Net.Valid() && dp2Net.mArchitecture == netArch && Dp2.LayersFit(netArch, dp2Net.mLayerParams) &&
      curNet.Valid() && curNet.netArch == netArch &&
      |tc1Inputs| == |dp2Inputs| == |curInputs| == netArch[0]
    }

    /** Every representation holds the parameters `params` and the inputs `inputs`. */
    ghost predicate Loaded(params: seq<real>, inputs: seq<real>)
      reads this, dp2Net, curNet
      requires Valid() && |params| >= TotalParams(netArch)
    {
      tc1Params == Unflatten(netArch, params) &&
      Dp2.ToMatrices(netArch, dp2Net.mLayerParams) == Unflatten(netArch, params) &&
      curNet.mParams == Unflatten(netArch, params) &&
      tc1Inputs == inputs && dp2Inputs == inputs && curInputs == inputs
    }

    constructor (netArch: Arch)
      requires |netArch| >= 2
      ensures Valid() && this.netArch == netArch
      ensures fresh(dp2Net) && fresh(curNet)
    {
      this.netArch := netArch;
      tc1Params := CommonNet.ZeroLayers(netArch);
      dp2Net := new Dp2.SimpleNeuralNet(netArch);
      curNet := new CommonNet.SimpleNeuralNet(netArch);
      tc1Inputs := seq(netArch[0], i => 0.0);
      dp2Inputs := tc1Inputs;
      curInputs := tc1Inputs;
    }

    /** `setInputs`: every representation gets an identical copy of the inputs;
        the parameters are untouched. */
    method SetInputs(inputs: seq<real>)
      requires Valid() && |inputs| == netArch[0]
      modifies this
      ensures Valid()
      ensures tc1Inputs == inputs && dp2Inputs == inputs && curInputs == inputs
      ensures tc1Params == old(tc1Params)
    {
      dp2Inputs := inputs;
      tc1Inputs := CopyInputs(inputs);
      curInputs := CopyInputs(inputs);
    }

    /** `setParams`: every representation is loaded from the same flat buffer, and
        each then holds the unflattened buffer; the inputs are untouched. */
    method SetParams(params: seq<real>)
      requires Valid() && |params| == TotalParams(netArch)
      modifies this, dp2Net, curNet
      ensures Valid()
      ensures tc1Params == Unflatten(netArch, params)
      ensures Dp2.ToMatrices(netArch, dp2Net.mLayerParams) == Unflatten(netArch, params)
      ensures curNet.mParams == Unflatten(netArch, params)
      ensures tc1Inputs == old(tc1Inputs) && dp2Inputs == old(dp2Inputs) && curInputs == old(curInputs)
    {
      tc1Params := SetParamsTc1(netArch, tc1Params, params);
      var layers, consumed := SetParamsDp2(netArch, dp2Net.mLayerParams, params);
      dp2Net.mLayerParams := layers;
      SetParamsCur(curNet, params);
    }

    /** `initInputsAndParams`, with the values drawn from the normal distribution
        given as `inputs` and `params`. */
    method InitInputsAndParams(inputs: seq<real>, params: seq<real>)
      requires Valid() && |inputs| == netArch[0] && |params| == TotalParams(netArch)
      modifies this, dp2Net, curNet
      ensures Valid() && Loaded(params, inputs)
    {
      SetInputs(inputs);
      SetParams(params);
    }

    /** `FeedForward_dp2`: the dp2 network run on its inputs. */
    method FeedForwardDp2() returns (output: seq<real>)
      requires Valid()
      ensures output == Forward(netArch, Dp2.ToMatrices(netArch, dp2Net.mLayerParams), dp2Inputs)
    {
      var inputs := new real[netArch[0]];
      var i := 0;
      while i < netArch[0]
        invariant i <= netArch[0]
        invariant inputs[..i] == dp2Inputs[..i]
      {
        inputs[i] := dp2Inputs[i];
        i := i + 1;
      }
      assert inputs[..netArch[0]] == dp2Inputs;
      var outputs := new real[netArch[|netArch| - 1]];
      dp2Net.FeedForward(inputs, outputs);
      output := outputs[..];
    }

    /** `FeedForward_tc1`: the matrix pack applied to its inputs. */
    function FeedForwardTc1(): (output: seq<real>)
      reads this, dp2Net, curNet
      requires Valid()
      ensures output == Forward(netArch, tc1Params, tc1Inputs)
    {
      Tc1.FeedForwardPack(netArch, tc1Inputs, tc1Params)
    }

    /** `FeedForward_cur`: the current network run on its inputs. */
    function FeedForwardCur(): (output: seq<real>)
      reads this, dp2Net, curNet
      requires Valid()
      ensures output == Forward(netArch, curNet.mParams, curInputs)
    {
      curNet.FeedForward(curInputs)
    }

    /** Once loaded from the same buffer and inputs, the representations produce
        identical outputs: the reference pass over the unflattened buffer. */
    method CompareOutputs(ghost params: seq<real>, ghost inputs: seq<real>)
      returns (dp2: seq<real>, tc1: seq<real>, cur: seq<real>)
      requires Valid() && |params| == TotalParams(netArch) && Loaded(params, inputs)
      ensures dp2 == tc1 == cur == Forward(netArch, Unflatten(netArch, params), inputs)
    {
      dp2 := FeedForwardDp2();
      tc1 := FeedForwardTc1();
      cur := FeedForwardCur();
    }
  }

  /** The other test setup: a flat-buffer network against the matrix pack that
      `fillNetParams` fills from `params1`, on a copy of the same inputs. The
      fixture builds the flat network from the architecture alone and never hands
      it `params1`, so its buffer `netParams` is whatever that network holds. Each
      output is the reference pass of its own parameters, and the two agree
      whenever the flat network's buffer holds `params1`. */
  method FlatAgainstMatrix(arch: Arch, netParams: array<real>, params1: array<real>, inputs1: array<real>)
    returns (outputs1: seq<real>, outputs2: seq<real>)
    requires |arch| >= 2 && netParams.Length == TotalParams(arch) && params1.Length == TotalParams(arch)
    requires inputs1.Length == arch[0]
    ensures outputs1 == Forward(arch, Unflatten(arch, netParams[..]), inputs1[..])
    ensures outputs2 == Forward(arch, Unflatten(arch, params1[..]), inputs1[..])
    ensures netParams[..] == params1[..] ==> outputs1 == outputs2
  {
    var net := new Lander03Net.SimpleNeuralNet(netParams, arch);
    var params2 := SetParamsTc1(arch, CommonNet.ZeroLayers(arch), params1[..]);
    var inputs2 := CopyInputs(inputs1[..]);
    var out := new real[arch[|arch| - 1]];
    assert inputs1[..arch[0]] == inputs1[..];
    net.FeedForward(inputs1, out);
    outputs1 := out[..];
    outputs2 := Tc1.FeedForwardPack(arch, inputs2, params2);
  }
}
