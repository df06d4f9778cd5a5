/** The Lander03 network: one flat, externally owned parameter buffer walked by a
    running index, and two scratch buffers of the widest layer's size that swap
    roles after every layer. */
module Lander03Net {
  import opened NetModel

  class SimpleNeuralNet {
    /** The parameter buffer; the network only reads it. */
    const mpParameters: array<real>
    const mArchitecture: Arch
    var mTotalParameters: nat
    var mMaxLayerSize: nat

    ghost predicate Valid()
      reads this
    {
      |mArchitecture| >= 1 &&
      mTotalParameters == TotalParams(mArchitecture) &&
      mMaxLayerSize == MaxOf(mArchitecture)
    }

    /** The parameter count accumulated layer by layer, and the widest layer. */
    constructor (pParameters: array<real>, architecture: Arch)
      requires |architecture| >= 1
      ensures Valid()
      ensures mpParameters == pParameters && mArchitecture == architecture
    {
      mpParameters := pParameters;
      mArchitecture := architecture;
      var total := 0;
      for i := 1 to |architecture|
        invariant total == TotalParams(architecture[..i])
      {
        LayerParamsIsProduct(architecture[i - 1], architecture[i]);
        assert architecture[..i + 1][..i] == architecture[..i];
        total := total + architecture[i - 1] * architecture[i] + architecture[i];
      }
      assert architecture[..|architecture|] == architecture;
      mTotalParameters := total;
      mMaxLayerSize := MaxOf(architecture);
    }

    function GetTotalParameters(): (n: nat)
      reads this
      requires Valid()
      ensures n == TotalParams(mArchitecture)
    {
      mTotalParameters
    }

    /** Writes to `outputs` the network's response to the first `arch[0]` inputs.
        The buffer is read strictly in order, one row (its weights, then its bias)
        per neuron, and nothing but `outputs` is written. */
    method FeedForward(inputs: array<real>, outputs: array<real>)
      requires Valid()
      requires mpParameters.Length >= mTotalParameters
      requires inputs.Length >= mArchitecture[0]
      requires outputs.Length >= mArchitecture[|mArchitecture| - 1]
      modifies outputs
      ensures outputs[..mArchitecture[|mArchitecture| - 1]] ==
              Forward(mArchitecture, Unflatten(mArchitecture, old(mpParameters[..])), old(inputs[..mArchitecture[0]]))
      ensures outputs[mArchitecture[|mArchitecture| - 1]..] == old(outputs[mArchitecture[|mArchitecture| - 1]..])
    {
      var arch := mArchitecture;
      ghost var flat := mpParameters[..];
      ghost var L := Unflatten(arch, flat);
      ghost var x := inputs[..arch[0]];

      var currentLayerOutputs := new real[mMaxLayerSize];
      var nextLayerOutputs := new real[mMaxLayerSize];

      CopyPrefix(inputs, currentLayerOutputs, arch[0]);
      ForwardPrefixZero(arch, L, x);
      assert currentLayerOutputs[..arch[0]] == x;

      var paramIdx := 0;
      for l := 0 to |arch| - 1
        invariant fresh(currentLayerOutputs) && fresh(nextLayerOutputs)
        invariant currentLayerOutputs != nextLayerOutputs
        invariant currentLayerOutputs.Length == nextLayerOutputs.Length == mMaxLayerSize
        invariant outputs[..] == old(outputs[..])
        invariant paramIdx == Offset(arch, l)
        invariant currentLayerOutputs[..arch[l]] == ForwardPrefix(arch, L, x, l)
      {
        ForwardPrefixStep(arch, L, x, l);
        paramIdx := ComputeLayer(l, currentLayerOutputs, nextLayerOutputs, paramIdx);
        currentLayerOutputs, nextLayerOutputs := nextLayerOutputs, currentLayerOutputs;
      }
      ForwardPrefixAll(arch, L, x);
      assert |L| == |arch| - 1;
      ghost var y := currentLayerOutputs[..arch[|arch| - 1]];
      assert y == Forward(arch, L, x);
      CopyPrefix(currentLayerOutputs, outputs, arch[|arch| - 1]);
    }

    /** One pass of the layer loop: layer transition `l` read from the buffer at
        `paramIdx`, its outputs written to `next`; returns the index just past it. */
    method ComputeLayer(l: nat, cur: array<real>, next: array<real>, paramIdx: nat) returns (idx: nat)
      requires Valid()
      requires l + 1 < |mArchitecture|
      requires mpParameters.Length >= mTotalParameters
      requires cur != next && next != mpParameters
      requires cur.Length == next.Length == mMaxLayerSize
      requires paramIdx == Offset(mArchitecture, l)
      modifies next
      ensures idx == Offset(mArchitecture, l + 1)
      ensures next[..mArchitecture[l + 1]] ==
              LayerOut(Unflatten(mArchitecture, mpParameters[..])[l], cur[..mArchitecture[l]])
    {
      var arch := mArchitecture;
      ghost var flat := mpParameters[..];
      ghost var L := Unflatten(arch, flat);
      var prevLayerSize := arch[l];
      ghost var x := cur[..prevLayerSize];
      ghost var m := L[l];
      assert |m| == arch[l + 1] && forall r :: 0 <= r < |m| ==> |m[r]| == prevLayerSize + 1;
      idx := paramIdx;
      for neuron := 0 to arch[l + 1]
        invariant idx == Offset(arch, l) + Span(neuron, arch[l] + 1)
        invariant forall j :: 0 <= j < neuron ==> next[j] == Neuron(m[j], x)
      {
        var sum;
        sum, idx := WeightedSum(l, neuron, cur, idx);
        next[neuron] := Relu(sum);
        assert next[neuron] == Neuron(m[neuron], x);
      }
      assert next[..arch[l + 1]] == LayerOut(m, x);
      OffsetStep(arch, l);
    }

    /** The inner loop of `ComputeLayer`: the weighted inputs of `neuron` plus its
        bias, read from the buffer at `paramIdx`; returns the sum and the index of
        the next row. */
    method WeightedSum(l: nat, neuron: nat, cur: array<real>, paramIdx: nat) returns (sum: real, idx: nat)
      requires Valid()
      requires l + 1 < |mArchitecture| && neuron < mArchitecture[l + 1]
      requires mpParameters.Length >= mTotalParameters
      requires cur.Length >= mArchitecture[l]
      requires paramIdx == Offset(mArchitecture, l) + Span(neuron, mArchitecture[l] + 1)
      ensures idx == Offset(mArchitecture, l) + Span(neuron + 1, mArchitecture[l] + 1)
      ensures sum == Affine(Unflatten(mArchitecture, mpParameters[..])[l][neuron], cur[..mArchitecture[l]])
    {
      var arch := mArchitecture;
      ghost var flat := mpParameters[..];
      ghost var row := Unflatten(arch, flat)[l][neuron];
      ghost var x := cur[..arch[l]];
      var prevLayerSize := arch[l];
      idx := paramIdx;
      sum := 0.0;
      for prevNeuron := 0 to prevLayerSize
        invariant idx == FlatIndex(arch, l, neuron, prevNeuron)
        invariant sum == Dot(x[..prevNeuron], row[..prevNeuron])
      {
        UnflattenAt(arch, flat, l, neuron, prevNeuron);
        DotStep(x, row, prevNeuron);
        assert cur[prevNeuron] == x[prevNeuron];
        sum := sum + cur[prevNeuron] * mpParameters[idx];
        idx := idx + 1;
      }
      UnflattenAt(arch, flat, l, neuron, arch[l]);
      assert x[..arch[l]] == x;
      sum := sum + mpParameters[idx];
      idx := idx + 1;
    }
  }
}
