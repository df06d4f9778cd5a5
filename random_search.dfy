/** The Lander03 random-search trainer: each epoch a fresh network is initialised
    from the generator seeded with `epoch + 1111`, tested on simulation variant
    1135, and kept when it beats the best score so far.

    The simulation (`mSimParams` and `TestNetworkOnSimulation`) is the oracle
    `simulate(seed, parameters)`, the square root is `sqrt`, and the generator
    seeded with `s` is the stream of canonical draws `generator(s)`. */
module RandomSearch {
  import opened NetModel
  import CommonNet
  import Genetic

  /** The seed the generator of an epoch's network is built from, cast to `uint32_t`. */
  function NetworkSeed(epoch: nat): (s: nat)
    ensures s < 0x1_0000_0000
    ensures epoch + 1111 < 0x1_0000_0000 ==> s == epoch + 1111
  {
    (epoch + 1111) % 0x1_0000_0000
  }

  /** The simulation variant every network is tested on. */
  const SIMULATION_SEED: nat := 1135

  /** The best of `init` and the scores in `scores`, taken in order and replaced only
      by a strictly greater one. */
  function BestOf(init: real, scores: seq<real>): real
  {
    if |scores| == 0 then init
    else
      var prev := BestOf(init, scores[..|scores| - 1]);
      if scores[|scores| - 1] > prev then scores[|scores| - 1] else prev
  }

  /** The best score is at least the initial one and every score tested, and it is
      one of them. */
  lemma {:induction false} BestOfIsMax(init: real, scores: seq<real>)
    ensures BestOf(init, scores) >= init
    ensures forall i :: 0 <= i < |scores| ==> BestOf(init, scores) >= scores[i]
    ensures BestOf(init, scores) == init || exists i :: 0 <= i < |scores| && BestOf(init, scores) == scores[i]
  {
    if |scores| > 0 {
      var front := scores[..|scores| - 1];
      BestOfIsMax(init, front);
      assert forall i :: 0 <= i < |front| ==> front[i] == scores[i];
    }
  }

  /** More epochs never lower the best score. */
  lemma {:induction false} BestOfMonotone(init: real, scores: seq<real>, n: nat)
    requires n <= |scores|
    ensures BestOf(init, scores[..n]) <= BestOf(init, scores)
    decreases |scores|
  {
    if n < |scores| {
      var front := scores[..|scores| - 1];
      assert scores[..n] == front[..n];
      BestOfMonotone(init, front, n);
    } else {
      assert scores[..n] == scores;
    }
  }

  class TrainingTaskRandom {
    const netArch: Arch
    const simulate: (nat, seq<Matrix>) -> real
    const sqrt: real -> real
    const generator: nat -> nat -> real
    const mMaxEpochs: nat
    var mCurrentEpoch: nat
    var mBestScore: real
    const mBestNetwork: CommonNet.SimpleNeuralNet
    /** The scores of the networks tested so far, in epoch order. */
    ghost var mTested: seq<real>

    /** The parameters of the network tested in `epoch`. */
    function TrialNetwork(epoch: nat): seq<Matrix>
      requires |netArch| >= 1
    {
      CommonNet.XavierLayers(netArch, sqrt, generator(NetworkSeed(epoch)))
    }

    /** The score of the network tested in `epoch`. */
    function TrialScore(epoch: nat): real
      requires |netArch| >= 1
    {
      simulate(SIMULATION_SEED, TrialNetwork(epoch))
    }

    ghost predicate Valid()
      reads this, mBestNetwork
    {
      |netArch| >= 2 && mBestNetwork.Valid() && mBestNetwork.netArch == netArch &&
      |mTested| == mCurrentEpoch &&
      (forall e :: 0 <= e < |mTested| ==> mTested[e] == TrialScore(e)) &&
      mBestScore == BestOf(Genetic.LOWEST, mTested)
    }

    /** A new trainer: no epoch run, the best score `-max`. */
    constructor (netArch: Arch, simulate: (nat, seq<Matrix>) -> real, sqrt: real -> real,
                 generator: nat -> nat -> real, maxEpochs: nat)
      requires |netArch| >= 2
      ensures Valid()
      ensures this.netArch == netArch && this.simulate == simulate && this.sqrt == sqrt
      ensures this.generator == generator && mMaxEpochs == maxEpochs
      ensures mCurrentEpoch == 0 && mBestScore == Genetic.LOWEST
      ensures fresh(mBestNetwork)
    {
      this.netArch := netArch;
      this.simulate := simulate;
      this.sqrt := sqrt;
      this.generator := generator;
      mMaxEpochs := maxEpochs;
      mCurrentEpoch := 0;
      mBestScore := Genetic.LOWEST;
      mBestNetwork := new CommonNet.SimpleNeuralNet(netArch);
      mTested := [];
    }

    /** `RunIteration`: the epoch's network initialised and tested; the best score
        and the best network replaced together, only by a strictly better score;
        the epoch advanced by one. */
    method RunIteration()
      requires Valid()
      modifies this, mBestNetwork
      ensures Valid()
      ensures mCurrentEpoch == old(mCurrentEpoch) + 1
      ensures mTested == old(mTested) + [TrialScore(old(mCurrentEpoch))]
      ensures TrialScore(old(mCurrentEpoch)) > old(mBestScore) ==>
                mBestScore == TrialScore(old(mCurrentEpoch)) && mBestNetwork.mParams == TrialNetwork(old(mCurrentEpoch))
      ensures !(TrialScore(old(mCurrentEpoch)) > old(mBestScore)) ==>
                mBestScore == old(mBestScore) && mBestNetwork.mParams == old(mBestNetwork.mParams)
      ensures old(IsTrainingComplete()) ==> IsTrainingComplete()
      ensures !old(IsTrainingComplete()) ==> IterationsLeft() == old(IterationsLeft()) - 1
    {
      var net := new CommonNet.SimpleNeuralNet(netArch);
      var networkSeed := NetworkSeed(mCurrentEpoch);
      net.InitializeRandomParameters(sqrt, generator(networkSeed));
      var currentScore := TestNetworkOnSimulation(SIMULATION_SEED, net);
      KeepIfBetter(net, currentScore);
    }

    /** The tail of `RunIteration`: the tested network and its score kept when the
        score beats the best, the epoch advanced by one. */
    method KeepIfBetter(net: CommonNet.SimpleNeuralNet, currentScore: real)
      requires Valid() && net.Valid() && net.netArch == netArch
      requires net.mParams == TrialNetwork(mCurrentEpoch) && currentScore == TrialScore(mCurrentEpoch)
      modifies this, mBestNetwork
      ensures Valid()
      ensures mCurrentEpoch == old(mCurrentEpoch) + 1
      ensures mTested == old(mTested) + [currentScore]
      ensures currentScore > old(mBestScore) ==> mBestScore == currentScore && mBestNetwork.mParams == old(net.mParams)
      ensures !(currentScore > old(mBestScore)) ==>
                mBestScore == old(mBestScore) && mBestNetwork.mParams == old(mBestNetwork.mParams)
    {
      ghost var tested := mTested + [currentScore];
      assert tested[..|tested| - 1] == mTested;
      if currentScore > mBestScore {
        mBestScore := currentScore;
        mBestNetwork.Assign(net);
      }
      mTested := tested;
      mCurrentEpoch := mCurrentEpoch + 1;
    }

    /** The simulation's score for the network's parameters. */
    method TestNetworkOnSimulation(simulationSeed: nat, net: CommonNet.SimpleNeuralNet) returns (score: real)
      ensures score == simulate(simulationSeed, net.mParams)
    {
      score := simulate(simulationSeed, net.mParams);
    }

    function GetCurrentEpoch(): nat reads this { mCurrentEpoch }
    function GetMaxEpochs(): nat { mMaxEpochs }
    function GetBestScore(): real reads this { mBestScore }
    function GetBestNetwork(): CommonNet.SimpleNeuralNet { mBestNetwork }

    /** The iterations still to run: the epochs between the counter and the maximum. */
    function IterationsLeft(): nat
      reads this
    {
      if mCurrentEpoch < mMaxEpochs then mMaxEpochs - mCurrentEpoch else 0
    }

    /** Training is complete once the epoch count reaches the maximum, that is,
        exactly when no iteration is left to run. */
    predicate IsTrainingComplete()
      reads this
      ensures IsTrainingComplete() <==> IterationsLeft() == 0
    {
      mCurrentEpoch >= mMaxEpochs
    }
  }

  /** After any number of epochs the best score is at least every score tested and
      equal to one of them (or still `-max`). */
  lemma BestScoreIsMaxTested(t: TrainingTaskRandom)
    requires t.Valid()
    ensures forall e :: 0 <= e < t.mCurrentEpoch ==> t.mBestScore >= t.TrialScore(e)
    ensures t.mBestScore == Genetic.LOWEST ||
            exists e :: 0 <= e < t.mCurrentEpoch && t.mBestScore == t.TrialScore(e)
  {
    BestOfIsMax(Genetic.LOWEST, t.mTested);
  }
}
