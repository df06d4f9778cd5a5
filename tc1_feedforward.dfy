/** The Eigen reference network of the tests: one augmented matrix per layer
    transition, applied to the inputs extended by a constant 1, activated, and fed
    to the next matrix. Matrix dimensions are template parameters in the source;
    here they are the architecture `arch` every matrix list is `Shaped` by. */
module Tc1 {
  import opened NetModel

  /** The inputs followed by the constant 1 that multiplies the bias column. */
  function ExtendedInputs(x: seq<real>): (e: seq<real>)
    ensures |e| == |x| + 1 && e[..|x|] == x && e[|x|] == 1.0
  {
    x + [1.0]
  }

  /** The matrix-vector product `P * v`, one dot product per row. */
  function MatVec(P: Matrix, v: seq<real>): (y: seq<real>)
    requires forall r :: 0 <= r < |P| ==> |P[r]| == |v|
    ensures |y| == |P|
  {
    seq(|P|, (r: int) requires 0 <= r < |P| => Dot(P[r], v))
  }

  /** `unaryExpr(Activate)`: the activation applied entry by entry. */
  function ActivateAll(v: seq<real>): (y: seq<real>)
    ensures |y| == |v|
    ensures forall i :: 0 <= i < |y| ==> y[i] >= 0.0 && (v[i] > 0.0 ==> y[i] == v[i])
  {
    seq(|v|, (i: int) requires 0 <= i < |v| => Relu(v[i]))
  }

  /** A row times the extended inputs is the neuron's weighted sum plus its bias. */
  lemma {:induction false} ExtendedRow(row: seq<real>, x: seq<real>)
    requires |row| == |x| + 1
    ensures Dot(row, ExtendedInputs(x)) == Affine(row, x)
  {
    var e := ExtendedInputs(x);
    assert row[..|row| - 1] == row[..|x|];
    assert e[..|e| - 1] == x;
    DotCommute(row[..|x|], x);
  }

  /** The single-matrix `FeedForward`: ReLU of `P` times the extended inputs, which
      is the layer of the reference pass. */
  function FeedForwardLayer(x: seq<real>, P: Matrix): (y: seq<real>)
    requires forall r :: 0 <= r < |P| ==> |P[r]| == |x| + 1
    ensures y == LayerOut(P, x)
  {
    var y := ActivateAll(MatVec(P, ExtendedInputs(x)));
    assert forall r :: 0 <= r < |P| ==> y[r] == Neuron(P[r], x) by {
      forall r | 0 <= r < |P| ensures y[r] == Neuron(P[r], x) {
        ExtendedRow(P[r], x);
      }
    }
    y
  }

  /** The recursive overload: the first matrix's activated output fed to the rest
      of the pack. It computes the reference pass. */
  function FeedForwardPack(arch: Arch, x: seq<real>, L: seq<Matrix>): (y: seq<real>)
    requires Shaped(arch, L) && |L| >= 1 && |x| == arch[0]
    ensures y == Forward(arch, L, x)
    decreases |L|
  {
    ForwardFront(arch, L, x);
    if |L| == 1 then FeedForwardLayer(x, L[0])
    else FeedForwardPack(arch[1..], FeedForwardLayer(x, L[0]), L[1..])
  }

  /** `fillNetParams`: every entry set to `func`, layers ascending, then rows, then
      columns. The first argument of `func` is the number of entries filled before,
      which is what a callback reading `params[paramIdx++]` sees. */
  method FillNetParams(arch: Arch, func: (nat, nat, nat, nat) -> real, netParam: seq<Matrix>)
    returns (filled: seq<Matrix>)
    requires Shaped(arch, netParam)
    ensures Shaped(arch, filled)
    ensures forall l, r, c :: 0 <= l < |filled| && 0 <= r < |filled[l]| && 0 <= c < |filled[l][r]| ==>
              filled[l][r][c] == func(FlatIndex(arch, l, r, c), l, r, c)
  {
    var count;
    filled, count := MapCells(arch, netParam, (k: nat, l: nat, r: nat, c: nat, v: real) => func(k, l, r, c));
  }
}
