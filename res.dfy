/** The Lander05 REINFORCE-ES trainer: a central network, perturbed each generation
    by `numPerturbations` antithetic pairs of normal noise vectors; the score
    difference of each pair weighs its noise in a gradient estimate, and the central
    parameters move along it.

    The central network's parameters are walked by `foreachParameters`, so the
    `j`-th parameter of every flat vector below is the cell visited `j`-th. The
    simulation is the oracle `simulate(seed, parameters)`, the square root is
    `sqrt`, and the generator's normal samples arrive as values. */
module Res {
  import opened NetModel
  import opened Genetic
  import CommonNet

  /** The number of simulation variants each network is scored on. */
  const RES_SIM_VARIANTS: nat := 30

  datatype Params = Params(maxGenerations: nat, sigma: real, alpha: real, numPerturbations: nat, seed: nat)

  /** The default hyperparameters. */
  const DEFAULT_PARAMS: Params := Params(0, 0.1, 0.01, 50, 1234)

  /** `evaluateNetwork`: the mean score over seeds `1134 .. 1163`. */
  function MeanScore(simulate: (nat, seq<Matrix>) -> real, params: seq<Matrix>): real
  {
    ScoreSum(simulate, params, RES_SIM_VARIANTS) / RES_SIM_VARIANTS as real
  }

  /** `c + s * e`, entry by entry. */
  function AddScaled(c: seq<real>, s: real, e: seq<real>): (r: seq<real>)
    requires |e| >= |c|
    ensures |r| == |c|
  {
    seq(|c|, j requires 0 <= j < |c| => c[j] + s * e[j])
  }

  /** `c - s * e`, entry by entry. */
  function SubScaled(c: seq<real>, s: real, e: seq<real>): (r: seq<real>)
    requires |e| >= |c|
    ensures |r| == |c|
  {
    seq(|c|, j requires 0 <= j < |c| => c[j] - s * e[j])
  }

  /** The two members of a pair lie symmetrically around the centre, and their
      mean is the centre. */
  lemma Antithetic(c: seq<real>, s: real, e: seq<real>)
    requires |e| >= |c|
    ensures forall j :: 0 <= j < |c| ==> AddScaled(c, s, e)[j] - c[j] == -(SubScaled(c, s, e)[j] - c[j])
    ensures forall j :: 0 <= j < |c| ==> (AddScaled(c, s, e)[j] + SubScaled(c, s, e)[j]) / 2.0 == c[j]
  {
    forall j | 0 <= j < |c|
      ensures AddScaled(c, s, e)[j] - c[j] == -(SubScaled(c, s, e)[j] - c[j])
      ensures (AddScaled(c, s, e)[j] + SubScaled(c, s, e)[j]) / 2.0 == c[j]
    {
    }
  }

  /** Stepping down by the same scaled noise undoes a step up. */
  lemma SubUndoesAdd(c: seq<real>, s: real, e: seq<real>)
    requires |e| >= |c|
    ensures SubScaled(AddScaled(c, s, e), s, e) == c
  {
    var r := SubScaled(AddScaled(c, s, e), s, e);
    forall j | 0 <= j < |c| ensures r[j] == c[j] {
    }
  }

  /** A step along a zero vector goes nowhere. */
  lemma ZeroStepKeeps(c: seq<real>, s: real, g: seq<real>)
    requires |g| >= |c| && forall j :: 0 <= j < |g| ==> g[j] == 0.0
    ensures AddScaled(c, s, g) == c
  {
    assert forall j :: 0 <= j < |c| ==> AddScaled(c, s, g)[j] == c[j];
  }

  datatype PerturbationResult = PerturbationResult(fitnessPlus: real, fitnessMinus: real, epsilon: seq<real>)

  predicate ResultsFor(results: seq<PerturbationResult>, n: nat)
  {
    forall i :: 0 <= i < |results| ==> |results[i].epsilon| == n
  }

  /** The gradient estimate after the first `|results|` pairs: zero, then each
      pair's noise weighted by its score difference and added. */
  function GradientEstimate(results: seq<PerturbationResult>, n: nat): (g: seq<real>)
    requires ResultsFor(results, n)
    ensures |g| == n
  {
    if |results| == 0 then seq(n, j => 0.0)
    else
      var last := results[|results| - 1];
      AddScaled(GradientEstimate(results[..|results| - 1], n), last.fitnessPlus - last.fitnessMinus, last.epsilon)
  }

  /** Entry `j` of the gradient estimate as a sum over the pairs. */
  function WeightedNoise(results: seq<PerturbationResult>, j: nat): real
    requires forall i :: 0 <= i < |results| ==> j < |results[i].epsilon|
  {
    if |results| == 0 then 0.0
    else
      var last := results[|results| - 1];
      WeightedNoise(results[..|results| - 1], j) + (last.fitnessPlus - last.fitnessMinus) * last.epsilon[j]
  }

  /** The accumulated gradient is `g[j] = Σ_i (f+_i − f−_i) · ε_i[j]`. */
  lemma {:induction false} GradientIsWeightedNoise(results: seq<PerturbationResult>, n: nat, j: nat)
    requires ResultsFor(results, n) && j < n
    ensures GradientEstimate(results, n)[j] == WeightedNoise(results, j)
  {
    if |results| > 0 {
      GradientIsWeightedNoise(results[..|results| - 1], n, j);
    }
  }

  /** A pair whose two members score the same adds nothing to the gradient. */
  lemma {:induction false} TiedPairsAddNothing(results: seq<PerturbationResult>, n: nat, j: nat)
    requires ResultsFor(results, n) && j < n
    requires forall i :: 0 <= i < |results| ==> results[i].fitnessPlus == results[i].fitnessMinus
    ensures GradientEstimate(results, n)[j] == 0.0
  {
    if |results| > 0 {
      TiedPairsAddNothing(results[..|results| - 1], n, j);
    }
  }

  /** A generation whose every pair scores the same on both members leaves the
      central parameters where they were. */
  lemma TiedGenerationKeepsCentral(c: seq<real>, scale: real, results: seq<PerturbationResult>)
    requires ResultsFor(results, |c|)
    requires forall i :: 0 <= i < |results| ==> results[i].fitnessPlus == results[i].fitnessMinus
    ensures AddScaled(c, scale, GradientEstimate(results, |c|)) == c
  {
    var g := GradientEstimate(results, |c|);
    forall j | 0 <= j < |c| ensures g[j] == 0.0 {
      TiedPairsAddNothing(results, |c|, j);
    }
    ZeroStepKeeps(c, scale, g);
  }

  /** The step factor of the update, `α' / (2 · N · σ')`. */
  function ScaleFactor(adaptedAlpha: real, numPerturbations: nat, adaptedSigma: real): real
    requires numPerturbations > 0 && adaptedSigma != 0.0
  {
    adaptedAlpha / (2.0 * numPerturbations as real * adaptedSigma)
  }

  class TrainingTaskRES {
    const mPar: Params
    const netArch: Arch
    const simulate: (nat, seq<Matrix>) -> real
    const mCentralNetwork: CommonNet.SimpleNeuralNet
    var mBestScore: real
    const mTotalParams: nat
    const mAdaptedSigma: real
    const mAdaptedAlpha: real
    var mCurrentGeneration: nat

    /** What holds of the constants alone. */
    predicate Consistent()
    {
      |netArch| >= 2 && mTotalParams == TotalParams(netArch)
    }

    ghost predicate Valid()
      reads this, mCentralNetwork
    {
      Consistent() && mCentralNetwork.Valid() && mCentralNetwork.netArch == netArch
    }

    /** The flat form of the central parameters, in visiting order. */
    ghost function Central(): (c: seq<real>)
      requires Valid()
      reads this, mCentralNetwork
      ensures |c| == mTotalParams
    {
      FlattenLength(netArch, mCentralNetwork.mParams);
      Flatten(mCentralNetwork.mParams)
    }

    /** The constructor: the central network initialised, the hyperparameters scaled
        by the parameter count (`σ' = σ / √n`, `α' = α / n`), and the best score set
        to the central network's first evaluation. `init` is the stream of the
        generator seeded with the first output of the trainer's own generator. */
    constructor (par: Params, simulate: (nat, seq<Matrix>) -> real, netArch: Arch,
                 sqrt: real -> real, init: nat -> real)
      requires |netArch| >= 2 && TotalParams(netArch) > 0
      requires sqrt(TotalParams(netArch) as real) != 0.0
      ensures Valid()
      ensures mPar == par && this.netArch == netArch && this.simulate == simulate
      ensures mCurrentGeneration == 0
      ensures mCentralNetwork.mParams == CommonNet.XavierLayers(netArch, sqrt, init)
      ensures mAdaptedSigma == par.sigma / sqrt(TotalParams(netArch) as real)
      ensures mAdaptedAlpha == par.alpha / TotalParams(netArch) as real
      ensures mBestScore == MeanScore(simulate, mCentralNetwork.mParams)
    {
      mPar := par;
      this.netArch := netArch;
      this.simulate := simulate;
      var central := new CommonNet.SimpleNeuralNet(netArch);
      central.InitializeRandomParameters(sqrt, init);
      var total := central.GetTotalParameterCount();
      mCentralNetwork := central;
      mTotalParams := total;
      mAdaptedSigma := par.sigma / sqrt(total as real);
      mAdaptedAlpha := par.alpha / total as real;
      mCurrentGeneration := 0;
      new;
      mBestScore := EvaluateNetwork(mCentralNetwork);
    }

    /** `evaluateNetwork`: the scores of the variants added in seed order, divided by
        their number. */
    method EvaluateNetwork(net: CommonNet.SimpleNeuralNet) returns (score: real)
      ensures score == MeanScore(simulate, net.mParams)
    {
      var totalScore := 0.0;
      for i := 0 to RES_SIM_VARIANTS
        invariant totalScore == ScoreSum(simulate, net.mParams, i)
      {
        totalScore := totalScore + simulate(SIM_START_SEED + i, net.mParams);
      }
      score := totalScore / RES_SIM_VARIANTS as real;
    }

    /** The result of the pair built from noise `epsilon` around the central
        parameters `c`. */
    ghost function PairResult(c: seq<real>, epsilon: seq<real>): (r: PerturbationResult)
      requires Consistent() && |c| == mTotalParams && |epsilon| >= |c|
      ensures r.epsilon == epsilon
    {
      PerturbationResult(
        MeanScore(simulate, Unflatten(netArch, AddScaled(c, mAdaptedSigma, epsilon))),
        MeanScore(simulate, Unflatten(netArch, SubScaled(c, mAdaptedSigma, epsilon))),
        epsilon)
    }

    /** The results of the pairs built from each noise vector in turn. */
    ghost function PairResults(c: seq<real>, noise: seq<seq<real>>): (rs: seq<PerturbationResult>)
      requires Consistent() && |c| == mTotalParams
      requires forall i :: 0 <= i < |noise| ==> |noise[i]| == mTotalParams
      ensures |rs| == |noise| && ResultsFor(rs, mTotalParams)
      decreases |noise|
    {
      if |noise| == 0 then []
      else PairResults(c, noise[..|noise| - 1]) + [PairResult(c, noise[|noise| - 1])]
    }

    /** Result `i` is the pair built around `c` from noise vector `i`. */
    lemma {:induction false} PairResultsAt(c: seq<real>, noise: seq<seq<real>>, i: nat)
      requires Consistent() && |c| == mTotalParams
      requires forall k :: 0 <= k < |noise| ==> |noise[k]| == mTotalParams
      requires i < |noise|
      ensures PairResults(c, noise)[i] == PairResult(c, noise[i])
      decreases |noise|
    {
      if i < |noise| - 1 {
        var front := noise[..|noise| - 1];
        PairResultsAt(c, front, i);
      }
    }

    /** The central parameters after one update from `c` with the given noise. */
    ghost function NextCentral(c: seq<real>, noise: seq<seq<real>>): seq<Matrix>
      requires Consistent() && |c| == mTotalParams
      requires mPar.numPerturbations > 0 && mAdaptedSigma != 0.0
      requires forall i :: 0 <= i < |noise| ==> |noise[i]| == mTotalParams
    {
      Unflatten(netArch, AddScaled(c, ScaleFactor(mAdaptedAlpha, mPar.numPerturbations, mAdaptedSigma),
                                   GradientEstimate(PairResults(c, noise), mTotalParams)))
    }

    /** `RunIteration` with `useThread == false`: nothing once training is complete;
        otherwise the pairs evaluated, the gradient accumulated, the central
        parameters moved by `ScaleFactor · g`, the best score replaced only by a
        strictly better evaluation of the new centre, and the generation advanced
        by one. `noise[i]` is the `i`-th noise vector. */
    method RunIteration(noise: seq<seq<real>>)
      requires Valid()
      requires !IsTrainingComplete() ==> mPar.numPerturbations > 0 && mAdaptedSigma != 0.0
      requires !IsTrainingComplete() ==>
                 |noise| == mPar.numPerturbations && forall i :: 0 <= i < |noise| ==> |noise[i]| == mTotalParams
      modifies this, mCentralNetwork
      ensures Valid()
      ensures old(IsTrainingComplete()) ==>
                mCurrentGeneration == old(mCurrentGeneration) && mBestScore == old(mBestScore) &&
                mCentralNetwork.mParams == old(mCentralNetwork.mParams)
      ensures !old(IsTrainingComplete()) ==>
                mCurrentGeneration == old(mCurrentGeneration) + 1 &&
                mBestScore == (if MeanScore(simulate, mCentralNetwork.mParams) > old(mBestScore)
                               then MeanScore(simulate, mCentralNetwork.mParams) else old(mBestScore))
      ensures !old(IsTrainingComplete()) ==> mCentralNetwork.mParams == NextCentral(old(Central()), noise)
      ensures mBestScore >= old(mBestScore)
      ensures old(IsTrainingComplete()) ==> IsTrainingComplete()
      ensures !old(IsTrainingComplete()) ==> IterationsLeft() == old(IterationsLeft()) - 1
    {
      if IsTrainingComplete() {
        return;
      }
      var results := EvaluatePerturbations(noise);
      var gradientEstimate := AccumulateGradient(results, mTotalParams);
      var scaleFactor := ScaleFactor(mAdaptedAlpha, mPar.numPerturbations, mAdaptedSigma);
      UpdateCentral(scaleFactor, gradientEstimate);
      var currentCentralScore := EvaluateNetwork(mCentralNetwork);
      if currentCentralScore > mBestScore {
        mBestScore := currentCentralScore;
      }
      mCurrentGeneration := mCurrentGeneration + 1;
    }

    /** The first loop of `RunIteration`: for each noise vector, the pair built and
        both members evaluated. */
    method EvaluatePerturbations(noise: seq<seq<real>>) returns (results: seq<PerturbationResult>)
      requires Valid()
      requires forall i :: 0 <= i < |noise| ==> |noise[i]| == mTotalParams
      ensures results == PairResults(Central(), noise)
    {
      ghost var c := Central();
      results := [];
      for i := 0 to |noise|
        invariant Valid() && Central() == c
        invariant results == PairResults(c, noise[..i])
      {
        var result := EvaluatePair(noise[i]);
        assert noise[..i + 1][..i] == noise[..i];
        results := results + [result];
      }
      assert noise[..|noise|] == noise;
    }

    /** One pass of that loop: the pair built from `epsilon`, the first member
        evaluated, then the second. */
    method EvaluatePair(epsilon: seq<real>) returns (result: PerturbationResult)
      requires Valid() && |epsilon| == mTotalParams
      ensures result == PairResult(Central(), epsilon)
    {
      var netPlus, netMinus := Perturb(epsilon);
      var fitnessPlus := EvaluateNetwork(netPlus);
      var fitnessMinus := EvaluateNetwork(netMinus);
      result := PerturbationResult(fitnessPlus, fitnessMinus, epsilon);
    }

    /** The pair built from `epsilon`: every central cell, visited in order, moved up
        by `σ' · ε[j]` in the first network and down by as much in the second. */
    method Perturb(epsilon: seq<real>) returns (netPlus: CommonNet.SimpleNeuralNet, netMinus: CommonNet.SimpleNeuralNet)
      requires Valid() && |epsilon| == mTotalParams
      ensures fresh(netPlus) && fresh(netMinus)
      ensures netPlus.mParams == Unflatten(netArch, AddScaled(Central(), mAdaptedSigma, epsilon))
      ensures netMinus.mParams == Unflatten(netArch, SubScaled(Central(), mAdaptedSigma, epsilon))
    {
      var sigma := mAdaptedSigma;
      var plus, count1 := MapCells(netArch, mCentralNetwork.mParams,
        (k: nat, l: nat, r: nat, c: nat, v: real) => v + sigma * Draw(epsilon, k));
      var minus, count2 := MapCells(netArch, mCentralNetwork.mParams,
        (k: nat, l: nat, r: nat, c: nat, v: real) => v - sigma * Draw(epsilon, k));
      forall l, r, c | 0 <= l < |plus| && 0 <= r < |plus[l]| && 0 <= c < |plus[l][r]|
        ensures plus[l][r][c] == AddScaled(Central(), sigma, epsilon)[FlatIndex(netArch, l, r, c)]
        ensures minus[l][r][c] == SubScaled(Central(), sigma, epsilon)[FlatIndex(netArch, l, r, c)]
      {
        FlattenAt(netArch, mCentralNetwork.mParams, l, r, c);
      }
      FilledFromBuffer(netArch, AddScaled(Central(), sigma, epsilon), plus);
      FilledFromBuffer(netArch, SubScaled(Central(), sigma, epsilon), minus);
      netPlus := new CommonNet.SimpleNeuralNet(netArch);
      netPlus.mParams := plus;
      netMinus := new CommonNet.SimpleNeuralNet(netArch);
      netMinus.mParams := minus;
    }

    /** The gradient loop of `RunIteration`: starting from zero, each pair's noise
        weighted by its score difference and added entry by entry. */
    static method AccumulateGradient(results: seq<PerturbationResult>, n: nat) returns (gradientEstimate: seq<real>)
      requires ResultsFor(results, n)
      ensures gradientEstimate == GradientEstimate(results, n)
    {
      gradientEstimate := seq(n, j => 0.0);
      for i := 0 to |results|
        invariant gradientEstimate == GradientEstimate(results[..i], n)
      {
        assert results[..i + 1][..i] == results[..i];
        var fitnessDiff := results[i].fitnessPlus - results[i].fitnessMinus;
        var epsilon := results[i].epsilon;
        gradientEstimate := AddGradient(gradientEstimate, fitnessDiff, epsilon);
      }
      assert results[..|results|] == results;
    }

    /** The inner loop: `g[j] += diff · ε[j]` for every `j`. */
    static method AddGradient(g: seq<real>, fitnessDiff: real, epsilon: seq<real>) returns (r: seq<real>)
      requires |epsilon| >= |g|
      ensures r == AddScaled(g, fitnessDiff, epsilon)
    {
      r := g;
      for j := 0 to |r|
        invariant |r| == |g|
        invariant forall k :: 0 <= k < j ==> r[k] == g[k] + fitnessDiff * epsilon[k]
        invariant forall k :: j <= k < |r| ==> r[k] == g[k]
      {
        r := r[j := r[j] + fitnessDiff * epsilon[j]];
      }
      assert forall k :: 0 <= k < |r| ==> r[k] == AddScaled(g, fitnessDiff, epsilon)[k];
    }

    /** The update loop: every central cell, visited in order, moved by
        `scaleFactor · g[j]`; no clamp. */
    method UpdateCentral(scaleFactor: real, gradientEstimate: seq<real>)
      requires Valid() && |gradientEstimate| == mTotalParams
      modifies mCentralNetwork
      ensures Valid()
      ensures mCentralNetwork.mParams == Unflatten(netArch, AddScaled(old(Central()), scaleFactor, gradientEstimate))
    {
      ghost var before := mCentralNetwork.mParams;
      FlattenLength(netArch, before);
      var g := gradientEstimate;
      var visits := mCentralNetwork.ForeachParameters(
        (k: nat, l: nat, r: nat, c: nat, v: real) => v + scaleFactor * Draw(g, k));
      ghost var target := AddScaled(Flatten(before), scaleFactor, g);
      forall l, r, c | 0 <= l < |before| && 0 <= r < |before[l]| && 0 <= c < |before[l][r]|
        ensures mCentralNetwork.mParams[l][r][c] == target[FlatIndex(netArch, l, r, c)]
      {
        FlattenAt(netArch, before, l, r, c);
      }
      FilledFromBuffer(netArch, target, mCentralNetwork.mParams);
    }

    function GetCurrentGeneration(): nat reads this { mCurrentGeneration }
    function GetMaxGenerations(): nat { mPar.maxGenerations }
    function GetBestScore(): real reads this { mBestScore }
    function GetSigma(): real { mAdaptedSigma }
    function GetAlpha(): real { mAdaptedAlpha }
    function GetNumPerturbations(): nat { mPar.numPerturbations }
    function GetCentralNetwork(): CommonNet.SimpleNeuralNet { mCentralNetwork }

    /** The iterations still to run: the generations between the counter and the maximum. */
    function IterationsLeft(): nat
      reads this
    {
      if mCurrentGeneration < mPar.maxGenerations then mPar.maxGenerations - mCurrentGeneration else 0
    }

    /** Training is complete once the generation count reaches the maximum, that is,
        exactly when no iteration is left to run. */
    predicate IsTrainingComplete()
      reads this
      ensures IsTrainingComplete() <==> IterationsLeft() == 0
    {
      mCurrentGeneration >= mPar.maxGenerations
    }
  }
}
