/** The network of the Lander05 trainers: a fixed architecture `netArch` and one
    augmented matrix per layer transition (`netArch[l+1]` rows, `netArch[l] + 1`
    columns, the bias in the last column). The forward pass is the recursive
    matrix pack of the reference network. */
module CommonNet {
  import opened NetModel
  import Tc1

  class SimpleNeuralNet {
    const netArch: Arch
    var mParams: seq<Matrix>

    ghost predicate Valid()
      reads this
    {
      |netArch| >= 2 && Shaped(netArch, mParams)
    }

    /** Fixed-size matrices start out uninitialised: only their shapes are known. */
    constructor (netArch: Arch)
      requires |netArch| >= 2
      ensures Valid() && this.netArch == netArch
    {
      this.netArch := netArch;
      mParams := ZeroLayers(netArch);
    }

    /** The copy constructor copies the parameters. */
    constructor Copy(other: SimpleNeuralNet)
      requires other.Valid()
      ensures Valid()
      ensures netArch == other.netArch && mParams == other.mParams
    {
      netArch := other.netArch;
      mParams := other.mParams;
    }

    /** Copy assignment copies every parameter; assigning a network to itself
        changes nothing. */
    method Assign(other: SimpleNeuralNet)
      requires Valid() && other.Valid() && other.netArch == netArch
      modifies this
      ensures Valid()
      ensures mParams == old(other.mParams)
    {
      if this != other {
        mParams := other.mParams;
      }
    }

    method GetTotalParameterCount() returns (n: nat)
      ensures n == TotalParams(netArch)
    {
      n := CalcTotalParameters(netArch);
    }

    /** The cell `(layer, row, col)` that `GetParameter` refers to: the one
        `foreachParameters` visits after `FlatIndex(netArch, layer, row, col)`
        others, that is, its position in the flat form of the parameters. */
    function GetParameter(layer: nat, row: nat, col: nat): (v: real)
      reads this
      requires Valid() && layer < |mParams| && row < netArch[layer + 1] && col <= netArch[layer]
      ensures FlatIndex(netArch, layer, row, col) < |Flatten(mParams)|
      ensures v == Flatten(mParams)[FlatIndex(netArch, layer, row, col)]
    {
      FlattenAt(netArch, mParams, layer, row, col);
      mParams[layer][row][col]
    }

    /** A write through the reference `GetParameter` returns: that cell becomes `v`,
        every other cell keeps its value. */
    method SetParameter(layer: nat, row: nat, col: nat, v: real)
      requires Valid() && layer < |mParams| && row < netArch[layer + 1] && col <= netArch[layer]
      modifies this
      ensures Valid()
      ensures GetParameter(layer, row, col) == v
      ensures forall l, r, c ::
                (0 <= l < |mParams| && 0 <= r < |mParams[l]| && 0 <= c < |mParams[l][r]| &&
                 (l != layer || r != row || c != col)) ==>
                mParams[l][r][c] == old(mParams)[l][r][c]
    {
      var m := mParams[layer];
      m := m[row := m[row][col := v]];
      mParams := mParams[layer := m];
    }

    /** `foreachParameters`: every cell visited once, layers ascending, then rows,
        then columns, and replaced by what `func` assigns to it. `func` is given the
        number of cells visited before, which is how the model hands a callback the
        running index its captured counter holds; the visit count is the total
        parameter count. */
    method ForeachParameters(func: (nat, nat, nat, nat, real) -> real) returns (ghost visits: nat)
      requires Valid()
      modifies this
      ensures Valid()
      ensures visits == TotalParams(netArch)
      ensures forall l, r, c :: 0 <= l < |mParams| && 0 <= r < |mParams[l]| && 0 <= c < |mParams[l][r]| ==>
                mParams[l][r][c] == func(FlatIndex(netArch, l, r, c), l, r, c, old(mParams)[l][r][c])
    {
      var count;
      mParams, count := MapCells(netArch, mParams, func);
      visits := count;
    }

    /** Xavier-uniform initialisation through `foreachParameters`: a weight column
        (`col < netArch[layer]`) takes the next draw of the generator mapped to
        `[-limit, limit]`, the bias column is set to zero. Weights alone consume
        draws, so the weight at `(l, r, c)` takes draw `WeightIndex(netArch, l, r, c)`,
        given as the canonical value `u(...)`. */
    method InitializeRandomParameters(sqrt: real -> real, u: nat -> real)
      requires Valid()
      modifies this
      ensures Valid()
      ensures mParams == XavierLayers(netArch, sqrt, u)
    {
      var a := netArch;
      var visits := ForeachParameters((k: nat, l: nat, r: nat, c: nat, v: real) => XavierCell(a, sqrt, u, l, r, c));
      SamePack(netArch, mParams, XavierLayers(netArch, sqrt, u));
    }

    /** The public `FeedForward`: the private recursive overloads over the matrix
        pack, which compute the reference pass. */
    function FeedForward(pInputs: seq<real>): (pOutputs: seq<real>)
      reads this
      requires Valid() && |pInputs| == netArch[0]
      ensures pOutputs == Forward(netArch, mParams, pInputs)
      ensures |pOutputs| == netArch[|netArch| - 1]
      ensures forall i :: 0 <= i < |pOutputs| ==> pOutputs[i] >= 0.0
    {
      Tc1.FeedForwardPack(netArch, pInputs, mParams)
    }
  }

  /** The value Xavier initialisation gives cell `(l, r, c)`: zero in the bias column,
      otherwise draw `WeightIndex(arch, l, r, c)` mapped to the layer's range. */
  function XavierCell(arch: Arch, sqrt: real -> real, u: nat -> real, l: nat, r: nat, c: nat): real
  {
    if l + 1 < |arch| && c < arch[l] then
      var limit := XavierLimit(sqrt, arch[l], arch[l + 1]);
      UniformSample(-limit, limit, u(WeightIndex(arch, l, r, c)))
    else 0.0
  }

  /** The pack Xavier initialisation produces: every cell as `XavierCell` gives it. */
  function XavierLayers(arch: Arch, sqrt: real -> real, u: nat -> real): (L: seq<Matrix>)
    requires |arch| >= 1
    ensures Shaped(arch, L)
    ensures forall l, r, c :: 0 <= l < |L| && 0 <= r < |L[l]| && 0 <= c < |L[l][r]| ==>
              L[l][r][c] == XavierCell(arch, sqrt, u, l, r, c)
  {
    seq(|arch| - 1, l requires 0 <= l < |arch| - 1 =>
      seq(arch[l + 1], r requires 0 <= r => seq(arch[l] + 1, c requires 0 <= c => XavierCell(arch, sqrt, u, l, r, c))))
  }

  /** With a non-negative square root and draws in [0, 1], every weight Xavier
      initialisation produces lies within the layer's limit, and every bias is zero. */
  lemma XavierCellInRange(arch: Arch, sqrt: real -> real, u: nat -> real, l: nat, r: nat, c: nat)
    requires l + 1 < |arch| && c <= arch[l]
    requires forall z :: sqrt(z) >= 0.0
    requires forall k :: 0.0 <= u(k) <= 1.0
    ensures c < arch[l] ==>
              -XavierLimit(sqrt, arch[l], arch[l + 1]) <= XavierCell(arch, sqrt, u, l, r, c) <= XavierLimit(sqrt, arch[l], arch[l + 1])
    ensures c == arch[l] ==> XavierCell(arch, sqrt, u, l, r, c) == 0.0
  {
    if c < arch[l] {
      UniformSampleInRange(XavierLimit(sqrt, arch[l], arch[l + 1]), u(WeightIndex(arch, l, r, c)));
    }
  }

  /** Matrices of the right shapes, all zero. */
  function ZeroLayers(arch: Arch): (L: seq<Matrix>)
    requires |arch| >= 1
    ensures Shaped(arch, L)
    decreases |arch|
  {
    if |arch| == 1 then []
    else
      ShapedAppend(arch, ZeroLayers(arch[..|arch| - 1]), ZeroMatrix(arch[|arch| - 1], arch[|arch| - 2] + 1));
      ZeroLayers(arch[..|arch| - 1]) + [ZeroMatrix(arch[|arch| - 1], arch[|arch| - 2] + 1)]
  }

  function ZeroMatrix(rows: nat, cols: nat): (m: Matrix)
    ensures |m| == rows && forall i :: 0 <= i < rows ==> |m[i]| == cols
  {
    if rows == 0 then [] else ZeroMatrix(rows - 1, cols) + [ZeroRow(cols)]
  }

  function ZeroRow(cols: nat): (row: seq<real>)
    ensures |row| == cols
  {
    if cols == 0 then [] else ZeroRow(cols - 1) + [0.0]
  }
}
