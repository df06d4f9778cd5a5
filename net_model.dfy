/** The fixed-topology ReLU network that every implementation in the repository
    computes: the architecture, the parameter count, the flat parameter layout
    (layers in forward order, per output neuron its input weights then its bias),
    the augmented-matrix layout (one `out x (in + 1)` matrix per layer, bias in the
    last column), the mapping between the two, and the layer-by-layer forward pass.
    Scalars are `real`: rounding plays no part in any property stated here. */
module NetModel {

  /** Layer widths `[n0, n1, ..., nk]`: n0 inputs, nk outputs. */
  type Arch = seq<nat>

  /** One layer transition: a row per output neuron, the input weights followed
      by the bias in the last column. */
  type Matrix = seq<seq<real>>

  /** The activation used on every layer, including the output layer. */
  function Relu(x: real): (r: real)
    ensures r >= 0.0 && r >= x
    ensures r == x || r == 0.0
  {
    if x > 0.0 then x else 0.0
  }

  /** `std::clamp(x, lo, hi)`. */
  function Clamp(x: real, lo: real, hi: real): (r: real)
    requires lo <= hi
    ensures lo <= r <= hi
    ensures lo <= x <= hi ==> r == x
  {
    if x < lo then lo else if hi < x then hi else x
  }

  /** Sum of `a[i] * b[i]`, accumulated front to back as the loops do. */
  function Dot(a: seq<real>, b: seq<real>): real
    requires |a| == |b|
  {
    if |a| == 0 then 0.0 else Dot(a[..|a| - 1], b[..|b| - 1]) + a[|a| - 1] * b[|b| - 1]
  }

  /** `*std::max_element(arch.begin(), arch.end())`. */
  function MaxOf(s: seq<nat>): (m: nat)
    requires |s| > 0
    ensures m in s
    ensures forall i :: 0 <= i < |s| ==> s[i] <= m
  {
    if |s| == 1 then s[0]
    else
      var t := MaxOf(s[..|s| - 1]);
      if s[|s| - 1] > t then s[|s| - 1] else t
  }

  // ---------------------------------------------------------------------------
  // Parameter counts and the flat layout

  /** Sum over consecutive layers of `arch[i-1] * arch[i] + arch[i]`: every layer
      transition contributes `arch[i]` rows of `arch[i-1]` weights and one bias
      (`LayerParamsIsProduct`). */
  function TotalParams(arch: Arch): nat
  {
    if |arch| < 2 then 0
    else TotalParams(arch[..|arch| - 1]) + Span(arch[|arch| - 1], arch[|arch| - 2] + 1)
  }

  /** Sum over consecutive layers of `arch[i-1] * arch[i]` (the weights only). */
  function TotalWeights(arch: Arch): nat
  {
    if |arch| < 2 then 0
    else TotalWeights(arch[..|arch| - 1]) + Span(arch[|arch| - 1], arch[|arch| - 2])
  }

  /** The parameters of one layer transition, as the sources count them. */
  lemma LayerParamsIsProduct(nIn: nat, nOut: nat)
    ensures Span(nOut, nIn + 1) == nIn * nOut + nOut
    ensures Span(nOut, nIn) == nIn * nOut
  {
    SpanIsProduct(nOut, nIn + 1);
    SpanIsProduct(nOut, nIn);
  }

  /** Position in the flat buffer where the parameters of layer `l` start. */
  function Offset(arch: Arch, l: nat): nat
    requires l < |arch|
  {
    TotalParams(arch[..l + 1])
  }

  /** `rows` rows of `width` cells laid end to end. It equals `rows * width`
      (`SpanIsProduct`); kept as a sum so that the layout proofs stay linear. */
  function Span(rows: nat, width: nat): nat
  {
    if rows == 0 then 0 else Span(rows - 1, width) + width
  }

  lemma {:induction false} SpanIsProduct(rows: nat, width: nat)
    ensures Span(rows, width) == rows * width
    decreases rows
  {
    if rows > 0 {
      SpanIsProduct(rows - 1, width);
      assert (rows - 1) * width + width == rows * width;
    }
  }

  lemma {:induction false} SpanMonotone(a: nat, b: nat, width: nat)
    requires a <= b
    ensures Span(a, width) <= Span(b, width)
    decreases b - a
  {
    if a < b {
      SpanMonotone(a, b - 1, width);
    }
  }

  /** Cell `c` of row `r` lies inside the first `rows` rows. */
  lemma RowBound(r: nat, c: nat, rows: nat, width: nat)
    requires r < rows && c < width
    ensures Span(r, width) + c < Span(r + 1, width) <= Span(rows, width)
  {
    SpanMonotone(r + 1, rows, width);
  }

  /** Flat position of cell `(l, r, c)`: weights of row `r` at columns `c < arch[l]`,
      its bias at column `arch[l]`. */
  function FlatIndex(arch: Arch, l: nat, r: nat, c: nat): (i: nat)
    requires l + 1 < |arch|
    ensures r < arch[l + 1] && c <= arch[l] ==>
              Offset(arch, l) <= i < Offset(arch, l + 1) && i < TotalParams(arch)
  {
    FlatIndexRange(arch, l, r, c);
    Offset(arch, l) + Span(r, arch[l] + 1) + c
  }

  lemma FlatIndexRange(arch: Arch, l: nat, r: nat, c: nat)
    requires l + 1 < |arch|
    ensures r < arch[l + 1] && c <= arch[l] ==>
              Offset(arch, l) + Span(r, arch[l] + 1) + c < Offset(arch, l + 1) &&
              Offset(arch, l) + Span(r, arch[l] + 1) + c < TotalParams(arch)
  {
    if r < arch[l + 1] && c <= arch[l] {
      RowBound(r, c, arch[l + 1], arch[l] + 1);
      OffsetStep(arch, l);
      OffsetMonotone(arch, l + 1, |arch| - 1);
      OffsetLast(arch);
    }
  }

  /** Position among the weights only (biases skipped) of weight `(l, r, c)`, `c < arch[l]`:
      the order in which weight-only initialisers draw random numbers. */
  function WeightIndex(arch: Arch, l: nat, r: nat, c: nat): (i: nat)
    requires l + 1 < |arch|
    ensures r < arch[l + 1] && c < arch[l] ==>
              TotalWeights(arch[..l + 1]) <= i < TotalWeights(arch[..l + 2]) && i < TotalWeights(arch)
  {
    WeightIndexRange(arch, l, r, c);
    TotalWeights(arch[..l + 1]) + Span(r, arch[l]) + c
  }

  lemma WeightIndexRange(arch: Arch, l: nat, r: nat, c: nat)
    requires l + 1 < |arch|
    ensures r < arch[l + 1] && c < arch[l] ==>
              TotalWeights(arch[..l + 1]) + Span(r, arch[l]) + c < TotalWeights(arch[..l + 2]) &&
              TotalWeights(arch[..l + 1]) + Span(r, arch[l]) + c < TotalWeights(arch)
  {
    if r < arch[l + 1] && c < arch[l] {
      RowBound(r, c, arch[l + 1], arch[l]);
      TotalWeightsStep(arch, l);
      TotalWeightsMonotone(arch, l + 2);
    }
  }

  lemma TotalWeightsStep(arch: Arch, l: nat)
    requires l + 1 < |arch|
    ensures TotalWeights(arch[..l + 2]) == TotalWeights(arch[..l + 1]) + Span(arch[l + 1], arch[l])
  {
    assert arch[..l + 2][..l + 1] == arch[..l + 1];
  }

  lemma OffsetStep(arch: Arch, l: nat)
    requires l + 1 < |arch|
    ensures Offset(arch, l + 1) == Offset(arch, l) + Span(arch[l + 1], arch[l] + 1)
  {
    assert arch[..l + 2][..l + 1] == arch[..l + 1];
  }

  lemma OffsetLast(arch: Arch)
    requires |arch| >= 1
    ensures Offset(arch, |arch| - 1) == TotalParams(arch)
  {
    assert arch[..|arch|] == arch;
  }

  lemma {:induction false} OffsetMonotone(arch: Arch, i: nat, j: nat)
    requires i <= j < |arch|
    ensures Offset(arch, i) <= Offset(arch, j)
    decreases j - i
  {
    if i < j {
      OffsetStep(arch, i);
      OffsetMonotone(arch, i + 1, j);
    }
  }

  lemma {:induction false} TotalWeightsMonotone(arch: Arch, k: nat)
    requires k <= |arch|
    ensures TotalWeights(arch[..k]) <= TotalWeights(arch)
    decreases |arch| - k
  {
    if k < |arch| {
      TotalWeightsMonotone(arch, k + 1);
      if k >= 1 {
        assert arch[..k + 1][..k] == arch[..k];
      }
    } else {
      assert arch[..k] == arch;
    }
  }

  /** A prefix of the architecture has the same offsets and flat indices. */
  lemma OffsetPrefix(arch: Arch, n: nat, l: nat)
    requires l < n <= |arch|
    ensures Offset(arch[..n], l) == Offset(arch, l)
  {
    assert arch[..n][..l + 1] == arch[..l + 1];
  }

  /** Distinct cells have distinct flat positions, so the flat layout writes every
      slot at most once. */
  lemma FlatIndexInjective(arch: Arch, l: nat, r: nat, c: nat, l': nat, r': nat, c': nat)
    requires l + 1 < |arch| && r < arch[l + 1] && c <= arch[l]
    requires l' + 1 < |arch| && r' < arch[l' + 1] && c' <= arch[l']
    requires FlatIndex(arch, l, r, c) == FlatIndex(arch, l', r', c')
    ensures l == l' && r == r' && c == c'
  {
    if l < l' {
      OffsetMonotone(arch, l + 1, l');
    } else if l' < l {
      OffsetMonotone(arch, l' + 1, l);
    } else {
      if r < r' {
        RowBound(r, c, r', arch[l] + 1);
      } else if r' < r {
        RowBound(r', c', r, arch[l] + 1);
      }
    }
  }

  // ---------------------------------------------------------------------------
  // The augmented-matrix layout

  /** `L` has one matrix per layer transition, layer `l` of shape
      `arch[l+1] x (arch[l] + 1)`. */
  predicate Shaped(arch: Arch, L: seq<Matrix>)
  {
    |arch| >= 1 && |L| == |arch| - 1 &&
    (forall l :: 0 <= l < |L| ==> |L[l]| == arch[l + 1]) &&
    (forall l, r :: 0 <= l < |L| && 0 <= r < |L[l]| ==> |L[l][r]| == arch[l] + 1)
  }

  lemma ShapedPrefix(arch: Arch, L: seq<Matrix>, k: nat)
    requires Shaped(arch, L) && k <= |L|
    ensures Shaped(arch[..k + 1], L[..k])
  {
  }

  lemma ShapedFront(arch: Arch, L: seq<Matrix>)
    requires Shaped(arch, L) && |L| > 0
    ensures Shaped(arch[..|arch| - 1], L[..|L| - 1])
  {
  }

  /** A cell read that is total: out-of-shape reads give 0. */
  function Cell(L: seq<Matrix>, l: nat, r: nat, c: nat): real
  {
    if l < |L| && r < |L[l]| && c < |L[l][r]| then L[l][r][c] else 0.0
  }

  /** `rows` consecutive rows of `w` values read from the front of `s`. */
  function UnflattenMatrix(s: seq<real>, rows: nat, w: nat): (m: Matrix)
    requires |s| >= Span(rows, w)
    ensures |m| == rows
    ensures forall i :: 0 <= i < |m| ==> |m[i]| == w
    decreases rows
  {
    if rows == 0 then []
    else UnflattenMatrix(s, rows - 1, w) + [s[Span(rows - 1, w) .. Span(rows, w)]]
  }

  /** The layers read out of a flat buffer in the flat order: layer `l` is the
      `arch[l+1] x (arch[l] + 1)` matrix starting at `Offset(arch, l)`. */
  function Unflatten(arch: Arch, flat: seq<real>): (L: seq<Matrix>)
    requires |arch| >= 1 && |flat| >= TotalParams(arch)
    ensures Shaped(arch, L)
    decreases |arch|
  {
    if |arch| == 1 then []
    else
      UnflattenBounds(arch);
      ShapedAppend(arch, Unflatten(arch[..|arch| - 1], flat),
                   UnflattenMatrix(flat[Offset(arch, |arch| - 2)..], arch[|arch| - 1], arch[|arch| - 2] + 1));
      Unflatten(arch[..|arch| - 1], flat) +
      [UnflattenMatrix(flat[Offset(arch, |arch| - 2)..], arch[|arch| - 1], arch[|arch| - 2] + 1)]
  }

  lemma UnflattenBounds(arch: Arch)
    requires |arch| >= 2
    ensures TotalParams(arch[..|arch| - 1]) == Offset(arch, |arch| - 2)
    ensures Offset(arch, |arch| - 2) + Span(arch[|arch| - 1], arch[|arch| - 2] + 1) == TotalParams(arch)
  {
    OffsetStep(arch, |arch| - 2);
    OffsetLast(arch);
  }

  lemma ShapedAppend(arch: Arch, front: seq<Matrix>, last: Matrix)
    requires |arch| >= 2 && Shaped(arch[..|arch| - 1], front)
    requires |last| == arch[|arch| - 1]
    requires forall i :: 0 <= i < |last| ==> |last[i]| == arch[|arch| - 2] + 1
    ensures Shaped(arch, front + [last])
  {
    var L := front + [last];
    forall l, r | 0 <= l < |L| && 0 <= r < |L[l]| ensures |L[l][r]| == arch[l] + 1 {
      if l < |front| {
        assert L[l] == front[l];
      }
    }
  }

  /** The rows of a matrix laid end to end. */
  function FlattenMatrix(m: Matrix): seq<real>
  {
    if |m| == 0 then [] else FlattenMatrix(m[..|m| - 1]) + m[|m| - 1]
  }

  /** The layers laid end to end in the flat order. */
  function Flatten(L: seq<Matrix>): seq<real>
  {
    if |L| == 0 then [] else Flatten(L[..|L| - 1]) + FlattenMatrix(L[|L| - 1])
  }

  lemma {:induction false} FlattenMatrixLength(m: Matrix, w: nat)
    requires forall i :: 0 <= i < |m| ==> |m[i]| == w
    ensures |FlattenMatrix(m)| == Span(|m|, w)
    decreases |m|
  {
    if |m| > 0 {
      FlattenMatrixLength(m[..|m| - 1], w);
    }
  }

  lemma {:induction false} FlattenMatrixAt(m: Matrix, w: nat, r: nat, c: nat)
    requires forall i :: 0 <= i < |m| ==> |m[i]| == w
    requires r < |m| && c < w
    ensures Span(r, w) + c < |FlattenMatrix(m)| && FlattenMatrix(m)[Span(r, w) + c] == m[r][c]
    decreases |m|
  {
    var n := |m| - 1;
    FlattenMatrixLength(m[..n], w);
    var front := FlattenMatrix(m[..n]);
    assert FlattenMatrix(m) == front + m[n];
    if r < n {
      FlattenMatrixAt(m[..n], w, r, c);
      RowBound(r, c, n, w);
    }
  }

  /** The flat form holds exactly `TotalParams(arch)` values. */
  lemma {:induction false} FlattenLength(arch: Arch, L: seq<Matrix>)
    requires Shaped(arch, L)
    ensures |Flatten(L)| == TotalParams(arch)
    decreases |L|
  {
    if |L| > 0 {
      ShapedFront(arch, L);
      FlattenLength(arch[..|arch| - 1], L[..|L| - 1]);
      FlattenMatrixLength(L[|L| - 1], arch[|arch| - 2] + 1);
    }
  }

  /** Cell `(l, r, c)` sits at its flat index in the flat form. */
  lemma {:induction false} FlattenAt(arch: Arch, L: seq<Matrix>, l: nat, r: nat, c: nat)
    requires Shaped(arch, L) && l < |L| && r < |L[l]| && c < |L[l][r]|
    ensures FlatIndex(arch, l, r, c) < |Flatten(L)| && Flatten(L)[FlatIndex(arch, l, r, c)] == L[l][r][c]
    decreases |L|
  {
    var archFront := arch[..|arch| - 1];
    var front := L[..|L| - 1];
    ShapedFront(arch, L);
    FlattenLength(archFront, front);
    if l < |L| - 1 {
      FlattenAt(archFront, front, l, r, c);
      FlatIndexPrefix(arch, |arch| - 1, l, r, c);
    } else {
      FlattenMatrixAt(L[|L| - 1], arch[|arch| - 2] + 1, r, c);
      UnflattenBounds(arch);
    }
  }

  /** Reading a matrix back out of a flat slice gives that slice. */
  lemma {:induction false} UnflattenMatrixAt(s: seq<real>, rows: nat, w: nat, r: nat, c: nat)
    requires |s| >= Span(rows, w) && r < rows && c < w
    ensures Span(r, w) + c < |s| && UnflattenMatrix(s, rows, w)[r][c] == s[Span(r, w) + c]
    decreases rows
  {
    RowBound(r, c, rows, w);
    if r < rows - 1 {
      UnflattenMatrixAt(s, rows - 1, w, r, c);
    }
  }

  lemma {:induction false} FlattenUnflattenMatrix(s: seq<real>, rows: nat, w: nat)
    requires |s| >= Span(rows, w)
    ensures FlattenMatrix(UnflattenMatrix(s, rows, w)) == s[..Span(rows, w)]
    decreases rows
  {
    if rows > 0 {
      var m := UnflattenMatrix(s, rows, w);
      var front := UnflattenMatrix(s, rows - 1, w);
      var last := s[Span(rows - 1, w) .. Span(rows, w)];
      assert m == front + [last];
      assert m[..|m| - 1] == front;
      assert FlattenMatrix(m) == FlattenMatrix(front) + last;
      FlattenUnflattenMatrix(s, rows - 1, w);
      assert s[..Span(rows, w)] == s[..Span(rows - 1, w)] + last;
    }
  }

  /** A prefix of the architecture has the same flat indices. */
  lemma FlatIndexPrefix(arch: Arch, n: nat, l: nat, r: nat, c: nat)
    requires l + 1 < n <= |arch|
    ensures FlatIndex(arch[..n], l, r, c) == FlatIndex(arch, l, r, c)
  {
    OffsetPrefix(arch, n, l);
  }

  /** Cell `(l, r, c)` of the unflattened layers is the value at its flat index. */
  lemma {:induction false} UnflattenAt(arch: Arch, flat: seq<real>, l: nat, r: nat, c: nat)
    requires |arch| >= 1 && |flat| >= TotalParams(arch)
    requires l + 1 < |arch| && r < arch[l + 1] && c <= arch[l]
    ensures Unflatten(arch, flat)[l][r][c] == flat[FlatIndex(arch, l, r, c)]
    decreases |arch|
  {
    UnflattenStep(arch, flat);
    if l < |arch| - 2 {
      assert Unflatten(arch, flat)[l] == Unflatten(arch[..|arch| - 1], flat)[l];
      UnflattenAt(arch[..|arch| - 1], flat, l, r, c);
      FlatIndexPrefix(arch, |arch| - 1, l, r, c);
    } else {
      LayerBlockFits(arch, flat, l);
      MatrixCellAt(flat, Offset(arch, l), arch[l + 1], arch[l] + 1, r, c);
    }
  }

  /** A cell of a matrix read from `flat` at offset `off` is the value at `off` plus its row-major index. */
  lemma MatrixCellAt(flat: seq<real>, off: nat, rows: nat, w: nat, r: nat, c: nat)
    requires off + Span(rows, w) <= |flat| && r < rows && c < w
    ensures off + Span(r, w) + c < |flat|
    ensures UnflattenMatrix(flat[off..], rows, w)[r][c] == flat[off + Span(r, w) + c]
  {
    UnflattenMatrixAt(flat[off..], rows, w, r, c);
  }

  /** Unflatten then flatten gives back the buffer (its first `TotalParams(arch)` values). */
  lemma {:induction false} FlattenUnflatten(arch: Arch, flat: seq<real>)
    requires |arch| >= 1 && |flat| >= TotalParams(arch)
    ensures Flatten(Unflatten(arch, flat)) == flat[..TotalParams(arch)]
    decreases |arch|
  {
    if |arch| > 1 {
      UnflattenStep(arch, flat);
      var off := Offset(arch, |arch| - 2);
      var span := Span(arch[|arch| - 1], arch[|arch| - 2] + 1);
      var front := Unflatten(arch[..|arch| - 1], flat);
      var last := UnflattenMatrix(flat[off..], arch[|arch| - 1], arch[|arch| - 2] + 1);
      calc {
        Flatten(front + [last]);
        == { FlattenAppend(front, last); }
        Flatten(front) + FlattenMatrix(last);
        == { FlattenUnflatten(arch[..|arch| - 1], flat);
             FlattenUnflattenMatrix(flat[off..], arch[|arch| - 1], arch[|arch| - 2] + 1); }
        flat[..off] + flat[off..][..span];
        == { assert flat[..off + span] == flat[..off] + flat[off..][..span]; }
        flat[..TotalParams(arch)];
      }
    }
  }

  /** The last layer split off `Unflatten`, with the slice it reads. */
  lemma UnflattenStep(arch: Arch, flat: seq<real>)
    requires |arch| >= 2 && |flat| >= TotalParams(arch)
    ensures Offset(arch, |arch| - 2) + Span(arch[|arch| - 1], arch[|arch| - 2] + 1) == TotalParams(arch)
    ensures Unflatten(arch, flat) ==
            Unflatten(arch[..|arch| - 1], flat) +
            [UnflattenMatrix(flat[Offset(arch, |arch| - 2)..], arch[|arch| - 1], arch[|arch| - 2] + 1)]
  {
    UnflattenBounds(arch);
  }

  lemma FlattenAppend(front: seq<Matrix>, last: Matrix)
    ensures Flatten(front + [last]) == Flatten(front) + FlattenMatrix(last)
  {
    assert (front + [last])[..|front|] == front;
  }

  /** Flatten then unflatten gives back the layers. */
  lemma UnflattenFlatten(arch: Arch, L: seq<Matrix>)
    requires Shaped(arch, L)
    ensures |Flatten(L)| == TotalParams(arch)
    ensures Unflatten(arch, Flatten(L)) == L
  {
    FlattenLength(arch, L);
    var M := Unflatten(arch, Flatten(L));
    forall l | 0 <= l < |L| ensures M[l] == L[l] {
      forall r | 0 <= r < |L[l]| ensures M[l][r] == L[l][r] {
        forall c | 0 <= c < |L[l][r]| ensures M[l][r][c] == L[l][r][c] {
          FlattenAt(arch, L, l, r, c);
          UnflattenAt(arch, Flatten(L), l, r, c);
        }
      }
    }
  }

  /** Layer `l` of the unflattened buffer is the block of the buffer that starts at
      `Offset(arch, l)`, read row by row. */
  lemma {:induction false} UnflattenLayer(arch: Arch, flat: seq<real>, l: nat)
    requires |arch| >= 1 && |flat| >= TotalParams(arch) && l + 1 < |arch|
    ensures Offset(arch, l) + Span(arch[l + 1], arch[l] + 1) <= |flat|
    ensures Unflatten(arch, flat)[l] == UnflattenMatrix(flat[Offset(arch, l)..], arch[l + 1], arch[l] + 1)
    decreases |arch|
  {
    LayerBlockFits(arch, flat, l);
    UnflattenStep(arch, flat);
    if l < |arch| - 2 {
      var front := arch[..|arch| - 1];
      UnflattenLayer(front, flat, l);
      OffsetPrefix(arch, |arch| - 1, l);
      assert front[l] == arch[l] && front[l + 1] == arch[l + 1];
    }
  }

  /** Layer `l`'s block of the buffer lies inside the buffer. */
  lemma LayerBlockFits(arch: Arch, flat: seq<real>, l: nat)
    requires |arch| >= 1 && |flat| >= TotalParams(arch) && l + 1 < |arch|
    ensures Offset(arch, l) + Span(arch[l + 1], arch[l] + 1) <= |flat|
  {
    OffsetStep(arch, l);
    OffsetMonotone(arch, l + 1, |arch| - 1);
    OffsetLast(arch);
  }

  /** The `k`-th draw of a list, 0.0 past its end (never reached when the list holds
      one draw per parameter). */
  function Draw(s: seq<real>, k: nat): real
  {
    if k < |s| then s[k] else 0.0
  }

  /** Two packs of the same shapes with the same cells are equal. */
  lemma SamePack(arch: Arch, A: seq<Matrix>, B: seq<Matrix>)
    requires Shaped(arch, A) && Shaped(arch, B)
    requires forall l, r, c :: 0 <= l < |A| && 0 <= r < |A[l]| && 0 <= c < |A[l][r]| ==> A[l][r][c] == B[l][r][c]
    ensures A == B
  {
    forall l | 0 <= l < |A| ensures A[l] == B[l] {
      forall r | 0 <= r < |A[l]| ensures A[l][r] == B[l][r] {
      }
    }
  }

  /** Layers whose every cell holds the buffer value at its flat index are the
      unflattened buffer: filling in the flat order has exactly one outcome. */
  lemma FilledFromBuffer(arch: Arch, flat: seq<real>, M: seq<Matrix>)
    requires Shaped(arch, M) && |flat| >= TotalParams(arch)
    requires forall l, r, c :: 0 <= l < |M| && 0 <= r < |M[l]| && 0 <= c < |M[l][r]| ==>
               M[l][r][c] == flat[FlatIndex(arch, l, r, c)]
    ensures M == Unflatten(arch, flat)
  {
    var U := Unflatten(arch, flat);
    forall l | 0 <= l < |M| ensures M[l] == U[l] {
      forall r | 0 <= r < |M[l]| ensures M[l][r] == U[l][r] {
        forall c | 0 <= c < |M[l][r]| ensures M[l][r][c] == U[l][r][c] {
          UnflattenAt(arch, flat, l, r, c);
        }
      }
    }
  }

  // ---------------------------------------------------------------------------
  // The forward pass

  /** A neuron before activation: the weighted inputs plus the bias. The products
      are `input * weight`, in input order, as the loops form them. */
  function Affine(row: seq<real>, x: seq<real>): real
    requires |row| == |x| + 1
  {
    Dot(x, row[..|x|]) + row[|x|]
  }

  /** Output of one neuron: ReLU of its affine part. */
  function Neuron(row: seq<real>, x: seq<real>): real
    requires |row| == |x| + 1
  {
    Relu(Affine(row, x))
  }

  /** Output of one layer transition. */
  function LayerOut(m: Matrix, x: seq<real>): (y: seq<real>)
    requires forall r :: 0 <= r < |m| ==> |m[r]| == |x| + 1
    ensures |y| == |m|
    ensures forall j :: 0 <= j < |y| ==> y[j] >= 0.0
  {
    seq(|m|, (r: int) requires 0 <= r < |m| => Neuron(m[r], x))
  }

  /** The network's output: the layers applied in forward order. */
  function Forward(arch: Arch, L: seq<Matrix>, x: seq<real>): (y: seq<real>)
    requires Shaped(arch, L) && |x| == arch[0]
    ensures |y| == arch[|arch| - 1]
    ensures |L| > 0 ==> forall j :: 0 <= j < |y| ==> y[j] >= 0.0
    decreases |L|
  {
    if |L| == 0 then x
    else
      ShapedFront(arch, L);
      LayerOut(L[|L| - 1], Forward(arch[..|arch| - 1], L[..|L| - 1], x))
  }

  /** The pass over the first `k` layer transitions: what a layer loop holds after
      `k` rounds. */
  function ForwardPrefix(arch: Arch, L: seq<Matrix>, x: seq<real>, k: nat): (y: seq<real>)
    requires Shaped(arch, L) && |x| == arch[0] && k <= |L|
    ensures |y| == arch[k]
  {
    ShapedPrefix(arch, L, k);
    Forward(arch[..k + 1], L[..k], x)
  }

  lemma ForwardPrefixZero(arch: Arch, L: seq<Matrix>, x: seq<real>)
    requires Shaped(arch, L) && |x| == arch[0]
    ensures ForwardPrefix(arch, L, x, 0) == x
  {
    ShapedPrefix(arch, L, 0);
  }

  /** One more layer of a prefix pass: the step of every layer loop. */
  lemma ForwardPrefixStep(arch: Arch, L: seq<Matrix>, x: seq<real>, k: nat)
    requires Shaped(arch, L) && |x| == arch[0] && k < |L|
    ensures |L[k]| == arch[k + 1]
    ensures forall r :: 0 <= r < |L[k]| ==> |L[k][r]| == arch[k] + 1
    ensures ForwardPrefix(arch, L, x, k + 1) == LayerOut(L[k], ForwardPrefix(arch, L, x, k))
  {
    ShapedPrefix(arch, L, k);
    ShapedPrefix(arch, L, k + 1);
    var a := arch[..k + 2];
    var M := L[..k + 1];
    assert a[..|a| - 1] == arch[..k + 1];
    assert M[..|M| - 1] == L[..k];
    assert M[|M| - 1] == L[k];
  }

  /** The prefix pass over all layers is the whole pass. */
  lemma ForwardPrefixAll(arch: Arch, L: seq<Matrix>, x: seq<real>)
    requires Shaped(arch, L) && |x| == arch[0]
    ensures ForwardPrefix(arch, L, x, |L|) == Forward(arch, L, x)
  {
    assert arch[..|L| + 1] == arch;
    assert L[..|L|] == L;
  }

  /** One more term of a dot product: the invariant of every summing loop. */
  lemma DotStep(a: seq<real>, b: seq<real>, k: nat)
    requires k < |a| && k < |b|
    ensures Dot(a[..k + 1], b[..k + 1]) == Dot(a[..k], b[..k]) + a[k] * b[k]
  {
    var a' := a[..k + 1];
    var b' := b[..k + 1];
    assert a'[..|a'| - 1] == a[..k];
    assert b'[..|b'| - 1] == b[..k];
  }

  /** Peeling the first layer off: the pass is the first layer followed by the rest. */
  lemma {:induction false} ForwardFront(arch: Arch, L: seq<Matrix>, x: seq<real>)
    requires Shaped(arch, L) && |x| == arch[0] && |L| >= 1
    ensures Shaped(arch[1..], L[1..])
    ensures Forward(arch, L, x) == Forward(arch[1..], L[1..], LayerOut(L[0], x))
    decreases |L|
  {
    assert Shaped(arch[1..], L[1..]) by {
      forall l, r | 0 <= l < |L[1..]| && 0 <= r < |L[1..][l]|
        ensures |L[1..][l][r]| == arch[1..][l] + 1
      {
        assert L[1..][l] == L[l + 1];
      }
    }
    ShapedFront(arch, L);
    if |L| > 1 {
      var A := arch[..|arch| - 1];
      var M := L[..|L| - 1];
      ForwardFront(A, M, x);
      var A' := arch[1..];
      var M' := L[1..];
      assert A'[..|A'| - 1] == A[1..];
      assert M'[..|M'| - 1] == M[1..];
      assert M'[|M'| - 1] == L[|L| - 1];
      assert M[0] == L[0];
    }
  }

  /** The products may be formed in either order. */
  lemma {:induction false} DotCommute(a: seq<real>, b: seq<real>)
    requires |a| == |b|
    ensures Dot(a, b) == Dot(b, a)
    decreases |a|
  {
    if |a| > 0 {
      DotCommute(a[..|a| - 1], b[..|b| - 1]);
    }
  }

  // ---------------------------------------------------------------------------
  // Copy loops and the parameter-count loop

  /** The element-by-element copy loops of every implementation: the first `n`
      cells of `src` into `dst`, the rest of `dst` untouched. */
  method CopyPrefix(src: array<real>, dst: array<real>, n: nat)
    requires src != dst && n <= src.Length && n <= dst.Length
    modifies dst
    ensures dst[..n] == src[..n]
    ensures dst[n..] == old(dst[n..])
  {
    for i := 0 to n
      invariant dst[..i] == src[..i]
      invariant dst[n..] == old(dst[n..])
    {
      dst[i] := src[i];
    }
  }

  /** `CalcTotalParameters`: the count accumulated over consecutive layers. */
  method CalcTotalParameters(architecture: Arch) returns (n: nat)
    ensures n == TotalParams(architecture)
  {
    n := 0;
    if |architecture| == 0 {
      return;
    }
    for i := 1 to |architecture|
      invariant n == TotalParams(architecture[..i])
    {
      LayerParamsIsProduct(architecture[i - 1], architecture[i]);
      ghost var next := architecture[..i + 1];
      assert next[..|next| - 1] == architecture[..i];
      assert next[|next| - 1] == architecture[i] && next[|next| - 2] == architecture[i - 1];
      n := n + architecture[i - 1] * architecture[i] + architecture[i];
    }
    assert architecture[..|architecture|] == architecture;
  }

  /** The worked example of the doc-comments: `[3, 5, 5, 3]` has 55 weights and
      13 biases, 68 parameters. */
  lemma TotalParamsExample()
    ensures TotalWeights([3, 5, 5, 3]) == 55
    ensures TotalParams([3, 5, 5, 3]) == 68
  {
    var a: Arch := [3, 5, 5, 3];
    var b: Arch := [3, 5, 5];
    var c: Arch := [3, 5];
    assert a[..|a| - 1] == b && b[..|b| - 1] == c && c[..|c| - 1] == [3];
    LayerParamsIsProduct(3, 5);
    LayerParamsIsProduct(5, 5);
    LayerParamsIsProduct(5, 3);
    assert TotalWeights(c) == 15 && TotalParams(c) == 20;
    assert TotalWeights(b) == 40 && TotalParams(b) == 50;
  }

  // ---------------------------------------------------------------------------
  // Xavier-uniform initialisation

  /** `sqrt(6 / (fanIn + fanOut))`, or 0 when both fans are 0. The square root is a
      parameter: it is not modelled. */
  function XavierLimit(sqrt: real -> real, fanIn: nat, fanOut: nat): real
  {
    if fanIn + fanOut > 0 then sqrt(6.0 / (fanIn + fanOut) as real) else 0.0
  }

  /** `std::uniform_real_distribution(lo, hi)` applied to a canonical draw `u` in [0, 1). */
  function UniformSample(lo: real, hi: real, u: real): real
  {
    lo + (hi - lo) * u
  }

  /** A canonical draw in [0, 1] lands in [-limit, limit]. */
  lemma UniformSampleInRange(limit: real, u: real)
    requires limit >= 0.0 && 0.0 <= u <= 1.0
    ensures -limit <= UniformSample(-limit, limit, u) <= limit
  {
    assert (limit - -limit) * u <= (limit - -limit) * 1.0;
  }

  // ---------------------------------------------------------------------------
  // Visiting every cell in the flat order

  /** Visits every cell of `L` once, layers ascending, then rows, then columns, and
      replaces it by `f(k, l, r, c, old value)`, where `k` counts the cells visited
      before: the traversal shared by `foreachParameters`, `fillNetParams` and the
      per-layer crossover and mutation loops. The count `k` is how the model gives
      a callback the running index its captured counter would hold. */
  method MapCells(arch: Arch, L: seq<Matrix>, f: (nat, nat, nat, nat, real) -> real) returns (M: seq<Matrix>, count: nat)
    requires Shaped(arch, L)
    ensures count == TotalParams(arch)
    ensures Shaped(arch, M)
    ensures forall l, r, c :: 0 <= l < |M| && 0 <= r < |M[l]| && 0 <= c < |M[l][r]| ==>
              M[l][r][c] == f(FlatIndex(arch, l, r, c), l, r, c, L[l][r][c])
  {
    M := L;
    var k := 0;
    for l := 0 to |L|
      invariant Shaped(arch, M)
      invariant k == Offset(arch, l)
      invariant forall i :: l <= i < |M| ==> M[i] == L[i]
      invariant forall i, r, c :: 0 <= i < l && 0 <= r < |M[i]| && 0 <= c < |M[i][r]| ==>
                  M[i][r][c] == f(FlatIndex(arch, i, r, c), i, r, c, L[i][r][c])
    {
      var layer := M[l];
      var w := arch[l] + 1;
      for r := 0 to |layer|
        invariant |layer| == arch[l + 1]
        invariant forall i :: 0 <= i < |layer| ==> |layer[i]| == w
        invariant k == Offset(arch, l) + Span(r, w)
        invariant forall i :: r <= i < |layer| ==> layer[i] == L[l][i]
        invariant forall i, c :: 0 <= i < r && 0 <= c < w ==>
                    layer[i][c] == f(FlatIndex(arch, l, i, c), l, i, c, L[l][i][c])
      {
        var row := layer[r];
        for c := 0 to w
          invariant |row| == w
          invariant k == FlatIndex(arch, l, r, c)
          invariant forall j :: c <= j < w ==> row[j] == L[l][r][j]
          invariant forall j :: 0 <= j < c ==> row[j] == f(FlatIndex(arch, l, r, j), l, r, j, L[l][r][j])
        {
          row := row[c := f(k, l, r, c, row[c])];
          k := k + 1;
        }
        layer := layer[r := row];
      }
      OffsetStep(arch, l);
      M := M[l := layer];
    }
    OffsetLast(arch);
    count := k;
  }
}
