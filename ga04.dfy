/** The Lander04 genetic-algorithm trainer: each individual's parameters are one
    flat vector of `TotalParams(architecture)` values. The random generator's
    output is supplied per call: canonical uniform draws in [0, 1) for the initial
    parameters, and per child two shuffled index lists, one crossover draw per
    parameter, one mutation draw per parameter and one normal sample per
    parameter. The episode score is an oracle `score(seed, parameters)`. */
module Ga04 {
  import opened NetModel
  import opened Genetic

  /** The random values one child consumes. */
  datatype ChildDraws = ChildDraws(
    selection1: seq<nat>, selection2: seq<nat>,
    crossover: seq<real>, mutation: seq<real>, noise: seq<real>)

  predicate ChildDrawsFor(d: ChildDraws, n: nat, paramCount: nat)
  {
    IndicesFor(d.selection1, n) && IndicesFor(d.selection2, n) &&
    |d.crossover| == paramCount && |d.mutation| == paramCount && |d.noise| == paramCount
  }

  /** Every parameter lies in [-1, 1]. */
  predicate InUnitRange(p: seq<real>)
  {
    forall j :: 0 <= j < |p| ==> -1.0 <= p[j] <= 1.0
  }

  /** Every individual has `paramCount` parameters. */
  predicate AllSized(population: seq<Individual<seq<real>>>, paramCount: nat)
  {
    forall i :: 0 <= i < |population| ==> |population[i].parameters| == paramCount
  }

  /** Every individual's parameters lie in [-1, 1]. */
  predicate AllInUnitRange(population: seq<Individual<seq<real>>>)
  {
    forall i :: 0 <= i < |population| ==> InUnitRange(population[i].parameters)
  }

  /** Every child's draws fit a population of `n` with `paramCount` parameters each. */
  predicate AllDrawsFor(draws: seq<ChildDraws>, n: nat, paramCount: nat)
  {
    forall k :: 0 <= k < |draws| ==> ChildDrawsFor(draws[k], n, paramCount)
  }

  /** Parameters drawn from `uniform_real_distribution(-1, 1)`, given its canonical draws. */
  function UniformParams(u: seq<real>): (p: seq<real>)
    ensures |p| == |u|
    ensures forall j :: 0 <= j < |u| ==> p[j] == UniformSample(-1.0, 1.0, u[j])
  {
    if |u| == 0 then [] else UniformParams(u[..|u| - 1]) + [UniformSample(-1.0, 1.0, u[|u| - 1])]
  }

  /** Canonical draws in [0, 1] give parameters in [-1, 1]. */
  lemma UniformParamsInRange(u: seq<real>)
    requires forall j :: 0 <= j < |u| ==> 0.0 <= u[j] <= 1.0
    ensures InUnitRange(UniformParams(u))
  {
    forall j | 0 <= j < |u| ensures -1.0 <= UniformParams(u)[j] <= 1.0 {
      UniformSampleInRange(1.0, u[j]);
    }
  }

  /** Uniform crossover: parameter `j` from the first parent when its draw is below
      one half, otherwise from the second. */
  function Crossed(p1: seq<real>, p2: seq<real>, coins: seq<real>): (child: seq<real>)
    requires |p2| >= |p1| && |coins| >= |p1|
    ensures |child| == |p1|
  {
    if |p1| == 0 then []
    else Crossed(p1[..|p1| - 1], p2, coins) + [if coins[|p1| - 1] < 0.5 then p1[|p1| - 1] else p2[|p1| - 1]]
  }

  /** Every parameter of a child is the one of a parent at the same position, so
      children of parents in [-1, 1] are in [-1, 1]. */
  lemma {:induction false} CrossedFromParents(p1: seq<real>, p2: seq<real>, coins: seq<real>)
    requires |p2| >= |p1| && |coins| >= |p1|
    ensures forall j :: 0 <= j < |p1| ==>
              Crossed(p1, p2, coins)[j] == (if coins[j] < 0.5 then p1[j] else p2[j])
    ensures InUnitRange(p1) && InUnitRange(p2) ==> InUnitRange(Crossed(p1, p2, coins))
  {
    if |p1| > 0 {
      CrossedFromParents(p1[..|p1| - 1], p2, coins);
    }
  }

  /** Mutation: a parameter whose draw is below the rate gets its normal sample
      added and is clamped to [-1, 1]; the others are unchanged. */
  function Mutated(p: seq<real>, coins: seq<real>, noise: seq<real>, rate: real): (q: seq<real>)
    requires |coins| >= |p| && |noise| >= |p|
    ensures |q| == |p|
  {
    if |p| == 0 then []
    else
      var j := |p| - 1;
      Mutated(p[..j], coins, noise, rate) + [if coins[j] < rate then Clamp(p[j] + noise[j], -1.0, 1.0) else p[j]]
  }

  /** Unselected parameters are unchanged, selected ones end in [-1, 1]; so
      mutation keeps parameters in [-1, 1]. */
  lemma {:induction false} MutatedProps(p: seq<real>, coins: seq<real>, noise: seq<real>, rate: real)
    requires |coins| >= |p| && |noise| >= |p|
    ensures forall j :: 0 <= j < |p| && !(coins[j] < rate) ==> Mutated(p, coins, noise, rate)[j] == p[j]
    ensures forall j :: 0 <= j < |p| && coins[j] < rate ==>
              Mutated(p, coins, noise, rate)[j] == Clamp(p[j] + noise[j], -1.0, 1.0)
    ensures InUnitRange(p) ==> InUnitRange(Mutated(p, coins, noise, rate))
  {
    if |p| > 0 {
      MutatedProps(p[..|p| - 1], coins, noise, rate);
    }
  }

  /** The child that `d` breeds from `population`: two tournament winners crossed,
      then mutated, not yet evaluated. */
  function Child(population: seq<Individual<seq<real>>>, d: ChildDraws, paramCount: nat, rate: real): Individual<seq<real>>
    requires |population| > 0 && ChildDrawsFor(d, |population|, paramCount)
    requires AllSized(population, paramCount)
  {
    var p1 := Winner(population, d.selection1);
    var p2 := Winner(population, d.selection2);
    NewIndividual(Mutated(Crossed(p1.parameters, p2.parameters, d.crossover), d.mutation, d.noise, rate))
  }

  /** The first `n` children, bred in order. */
  function Children(population: seq<Individual<seq<real>>>, draws: seq<ChildDraws>, n: nat, paramCount: nat, rate: real)
    : (cs: seq<Individual<seq<real>>>)
    requires |population| > 0 && n <= |draws|
    requires AllDrawsFor(draws, |population|, paramCount)
    requires AllSized(population, paramCount)
    ensures |cs| == n
  {
    if n == 0 then []
    else Children(population, draws, n - 1, paramCount, rate) + [Child(population, draws[n - 1], paramCount, rate)]
  }

  /** Children are unevaluated, have `paramCount` parameters, and stay in [-1, 1]
      when the population is. */
  lemma {:induction false} ChildrenProps(population: seq<Individual<seq<real>>>, draws: seq<ChildDraws>, n: nat,
                                         paramCount: nat, rate: real)
    requires |population| > 0 && n <= |draws|
    requires AllDrawsFor(draws, |population|, paramCount)
    requires AllSized(population, paramCount)
    ensures forall k :: 0 <= k < n ==> Children(population, draws, n, paramCount, rate)[k].fitness == LOWEST
    ensures AllSized(Children(population, draws, n, paramCount, rate), paramCount)
    ensures AllInUnitRange(population) ==> AllInUnitRange(Children(population, draws, n, paramCount, rate))
  {
    if n > 0 {
      ChildrenProps(population, draws, n - 1, paramCount, rate);
      var d := draws[n - 1];
      var p1 := Winner(population, d.selection1);
      var p2 := Winner(population, d.selection2);
      CrossedFromParents(p1.parameters, p2.parameters, d.crossover);
      MutatedProps(Crossed(p1.parameters, p2.parameters, d.crossover), d.mutation, d.noise, rate);
    }
  }

  class TrainingTaskGA {
    const mNetworkArchitecture: Arch
    const mMaxGenerations: nat
    const mPopulationSize: nat
    var mCurrentGeneration: nat
    const mMutationRate: real
    /** The standard deviation of the normal samples, which arrive already drawn. */
    const mMutationStrength: real
    var mPopulation: seq<Individual<seq<real>>>
    var mBestIndividual: Individual<seq<real>>

    function ParamCount(): nat
    {
      TotalParams(mNetworkArchitecture)
    }

    ghost predicate Valid()
      reads this
    {
      |mPopulation| == mPopulationSize &&
      AllSized(mPopulation, ParamCount())
    }

    /** Every individual's parameters lie in [-1, 1]. */
    ghost predicate Bounded()
      reads this
    {
      AllInUnitRange(mPopulation)
    }

    /** The new generation: the elite prefix of the old population, then children
        until there are `mPopulationSize` individuals. */
    ghost function NextGeneration(population: seq<Individual<seq<real>>>, draws: seq<ChildDraws>): seq<Individual<seq<real>>>
      requires |population| > 0 && |draws| >= mPopulationSize
      requires AllDrawsFor(draws, |population|, ParamCount())
      requires AllSized(population, ParamCount())
    {
      var e := if EliteCount(mPopulationSize) < |population| then EliteCount(mPopulationSize) else |population|;
      population[..e] +
      Children(population, draws, mPopulationSize - e, ParamCount(), mMutationRate)
    }

    /** The constructor: the parameters stored, then the first population drawn. */
    constructor (architecture: Arch, maxGenerations: nat, populationSize: nat, mutationRate: real,
                 mutationStrength: real, draws: seq<seq<real>>)
      requires |draws| == populationSize
      requires forall i :: 0 <= i < |draws| ==> |draws[i]| == TotalParams(architecture)
      ensures Valid()
      ensures mNetworkArchitecture == architecture && mMaxGenerations == maxGenerations
      ensures mPopulationSize == populationSize && mMutationRate == mutationRate
      ensures mCurrentGeneration == 0 && mBestIndividual == NewIndividual([])
      ensures forall i :: 0 <= i < |mPopulation| ==> mPopulation[i] == NewIndividual(UniformParams(draws[i]))
      ensures (forall i, j :: 0 <= i < |draws| && 0 <= j < |draws[i]| ==> 0.0 <= draws[i][j] <= 1.0) ==> Bounded()
    {
      mNetworkArchitecture := architecture;
      mMaxGenerations := maxGenerations;
      mPopulationSize := populationSize;
      mMutationRate := mutationRate;
      mMutationStrength := mutationStrength;
      mCurrentGeneration := 0;
      mBestIndividual := NewIndividual([]);
      new;
      InitializePopulation(draws);
    }

    /** `InitializePopulation`: `mPopulationSize` fresh individuals, each with
        `paramCount` parameters drawn uniformly from [-1, 1]. */
    method InitializePopulation(draws: seq<seq<real>>)
      requires |draws| == mPopulationSize
      requires forall i :: 0 <= i < |draws| ==> |draws[i]| == ParamCount()
      modifies this
      ensures Valid()
      ensures mCurrentGeneration == old(mCurrentGeneration) && mBestIndividual == old(mBestIndividual)
      ensures forall i :: 0 <= i < |mPopulation| ==> mPopulation[i] == NewIndividual(UniformParams(draws[i]))
      ensures (forall i, j :: 0 <= i < |draws| && 0 <= j < |draws[i]| ==> 0.0 <= draws[i][j] <= 1.0) ==> Bounded()
    {
      var paramCount := CalcTotalParameters(mNetworkArchitecture);
      mPopulation := DrawPopulation(draws);
      forall i | 0 <= i < |draws| && (forall j :: 0 <= j < |draws[i]| ==> 0.0 <= draws[i][j] <= 1.0)
        ensures InUnitRange(mPopulation[i].parameters)
      {
        UniformParamsInRange(draws[i]);
      }
    }

    /** The outer loop of `InitializePopulation`: one fresh individual per draw list. */
    static method DrawPopulation(draws: seq<seq<real>>) returns (population: seq<Individual<seq<real>>>)
      ensures |population| == |draws|
      ensures forall i :: 0 <= i < |draws| ==> population[i] == NewIndividual(UniformParams(draws[i]))
    {
      population := seq(|draws|, i => NewIndividual([]));
      for i := 0 to |draws|
        invariant |population| == |draws|
        invariant forall k :: 0 <= k < i ==> population[k] == NewIndividual(UniformParams(draws[k]))
      {
        var params := DrawParams(draws[i]);
        population := population[i := NewIndividual(params)];
      }
    }

    /** The inner loop of `InitializePopulation`: one parameter per draw. */
    static method DrawParams(u: seq<real>) returns (params: seq<real>)
      ensures params == UniformParams(u)
    {
      params := seq(|u|, j => 0.0);
      for j := 0 to |u|
        invariant |params| == |u|
        invariant forall k :: 0 <= k < j ==> params[k] == UniformSample(-1.0, 1.0, u[k])
      {
        params := params[j := UniformSample(-1.0, 1.0, u[j])];
      }
    }

    /** `RunIteration`: the first generation is only evaluated, later ones are bred
        and then evaluated; the population is sorted by descending fitness, the
        best individual replaced only by a strictly fitter head, and the generation
        counter advanced by one. */
    method RunIteration(score: (nat, seq<real>) -> real, draws: seq<ChildDraws>)
      requires Valid() && mPopulationSize > 0
      requires mCurrentGeneration != 0 ==>
                 |draws| >= mPopulationSize &&
                 AllDrawsFor(draws, mPopulationSize, ParamCount())
      modifies this
      ensures Valid()
      ensures mCurrentGeneration == old(mCurrentGeneration) + 1
      ensures old(mCurrentGeneration) == 0 ==>
                mPopulation == SortByFitness(Evaluated(old(mPopulation), score))
      ensures old(mCurrentGeneration) != 0 ==>
                mPopulation == SortByFitness(Evaluated(NextGeneration(old(mPopulation), draws), score))
      ensures mBestIndividual == UpdateBest(old(mBestIndividual), mPopulation)
      ensures old(Bounded()) ==> Bounded()
      ensures old(IsTrainingComplete()) ==> IsTrainingComplete()
      ensures !old(IsTrainingComplete()) ==> IterationsLeft() == old(IterationsLeft()) - 1
    {
      ProduceGeneration(score, draws);
      mCurrentGeneration := mCurrentGeneration + 1;
      CounterStep(old(mCurrentGeneration));
    }

    /** The population work of one iteration: the first generation is evaluated,
        later ones are bred and then evaluated; the result is sorted and the best
        individual kept. The generation count is left to the caller. */
    method ProduceGeneration(score: (nat, seq<real>) -> real, draws: seq<ChildDraws>)
      requires Valid() && mPopulationSize > 0
      requires mCurrentGeneration != 0 ==>
                 |draws| >= mPopulationSize &&
                 AllDrawsFor(draws, mPopulationSize, ParamCount())
      modifies this
      ensures Valid()
      ensures mCurrentGeneration == old(mCurrentGeneration)
      ensures old(mCurrentGeneration) == 0 ==>
                mPopulation == SortByFitness(Evaluated(old(mPopulation), score))
      ensures old(mCurrentGeneration) != 0 ==>
                mPopulation == SortByFitness(Evaluated(NextGeneration(old(mPopulation), draws), score))
      ensures mBestIndividual == UpdateBest(old(mBestIndividual), mPopulation)
      ensures old(Bounded()) ==> Bounded()
    {
      if mCurrentGeneration == 0 {
        EvaluatePopulation(score);
      } else {
        Evolve(draws);
        EvaluatePopulation(score);
      }
      SortAndKeepBest();
    }

    /** The tail of `RunIteration`: the population sorted by descending fitness and
        the best individual replaced only by a strictly fitter head. */
    method SortAndKeepBest()
      requires Valid() && mPopulationSize > 0
      modifies this
      ensures Valid()
      ensures mPopulation == SortByFitness(old(mPopulation))
      ensures mBestIndividual == UpdateBest(old(mBestIndividual), mPopulation)
      ensures mCurrentGeneration == old(mCurrentGeneration)
      ensures old(Bounded()) ==> Bounded()
    {
      ghost var unsorted := mPopulation;
      mPopulation := SortByFitness(mPopulation);
      ReorderKeeps(unsorted, mPopulation, ParamCount());
      if mPopulation[0].fitness > mBestIndividual.fitness {
        mBestIndividual := mPopulation[0];
      }
    }

    /** `EvaluatePopulation`: every individual's fitness set to its mean score. */
    method EvaluatePopulation(score: (nat, seq<real>) -> real)
      modifies this
      ensures mPopulation == Evaluated(old(mPopulation), score)
      ensures mCurrentGeneration == old(mCurrentGeneration) && mBestIndividual == old(mBestIndividual)
      ensures AllSized(old(mPopulation), ParamCount()) ==> AllSized(mPopulation, ParamCount())
      ensures old(Bounded()) ==> Bounded()
    {
      EvaluatedKeeps(mPopulation, score, ParamCount());
      mPopulation := EvaluateAll(mPopulation, score);
    }

    /** `Evolve`: the elite prefix kept, then children bred from the old population
        until the population is full again. */
    method Evolve(draws: seq<ChildDraws>)
      requires Valid() && mPopulationSize > 0 && |draws| >= mPopulationSize
      requires AllDrawsFor(draws, mPopulationSize, ParamCount())
      modifies this
      ensures Valid()
      ensures mPopulation == NextGeneration(old(mPopulation), draws)
      ensures mCurrentGeneration == old(mCurrentGeneration) && mBestIndividual == old(mBestIndividual)
      ensures old(Bounded()) ==> Bounded()
    {
      var oldPopulation := mPopulation;
      var eliteCount := EliteCount(mPopulationSize);
      var elite := KeepElite(oldPopulation, eliteCount);
      var population := Breed(oldPopulation, elite, draws);
      ghost var children := Children(oldPopulation, draws, mPopulationSize - |elite|, ParamCount(), mMutationRate);
      ChildrenProps(oldPopulation, draws, mPopulationSize - |elite|, ParamCount(), mMutationRate);
      PrefixKeeps(oldPopulation, |elite|, ParamCount());
      ConcatKeeps(elite, children, ParamCount());
      assert population == NextGeneration(oldPopulation, draws);
      mPopulation := population;
    }

    /** The second loop of `Evolve`: children bred from the old population, two
        tournament winners crossed and mutated, until the population is full. */
    method Breed(oldPopulation: seq<Individual<seq<real>>>, elite: seq<Individual<seq<real>>>, draws: seq<ChildDraws>)
      returns (population: seq<Individual<seq<real>>>)
      requires |oldPopulation| > 0 && |elite| <= mPopulationSize <= |draws|
      requires AllDrawsFor(draws, |oldPopulation|, ParamCount())
      requires AllSized(oldPopulation, ParamCount())
      ensures population == elite + Children(oldPopulation, draws, mPopulationSize - |elite|, ParamCount(), mMutationRate)
    {
      var children := [];
      while |elite| + |children| < mPopulationSize
        invariant |elite| + |children| <= mPopulationSize
        invariant children == Children(oldPopulation, draws, |children|, ParamCount(), mMutationRate)
        decreases mPopulationSize - |children|
      {
        var child := BreedChild(oldPopulation, draws[|children|]);
        children := children + [child];
      }
      population := elite + children;
    }

    /** One pass of the second loop of `Evolve`: two parents selected, crossed and
        the child mutated. */
    method BreedChild(oldPopulation: seq<Individual<seq<real>>>, d: ChildDraws) returns (child: Individual<seq<real>>)
      requires |oldPopulation| > 0 && ChildDrawsFor(d, |oldPopulation|, ParamCount())
      requires AllSized(oldPopulation, ParamCount())
      ensures child == Child(oldPopulation, d, ParamCount(), mMutationRate)
    {
      var parent1 := SelectParent(oldPopulation, d.selection1);
      var parent2 := SelectParent(oldPopulation, d.selection2);
      child := Crossover(parent1, parent2, d.crossover);
      child := Mutate(child, d.mutation, d.noise);
    }

    /** `Crossover`: a fresh child of the first parent's length whose every
        parameter comes from one of the parents at the same position. */
    method Crossover(parent1: Individual<seq<real>>, parent2: Individual<seq<real>>, coins: seq<real>)
      returns (child: Individual<seq<real>>)
      requires |parent2.parameters| >= |parent1.parameters| && |coins| >= |parent1.parameters|
      ensures child == NewIndividual(Crossed(parent1.parameters, parent2.parameters, coins))
    {
      var p1 := parent1.parameters;
      var p2 := parent2.parameters;
      CrossedFromParents(p1, p2, coins);
      var childParams := seq(|p1|, j => 0.0);
      for i := 0 to |childParams|
        invariant |childParams| == |p1|
        invariant forall j :: 0 <= j < i ==> childParams[j] == Crossed(p1, p2, coins)[j]
      {
        if coins[i] < 0.5 {
          childParams := childParams[i := p1[i]];
        } else {
          childParams := childParams[i := p2[i]];
        }
      }
      assert childParams == Crossed(p1, p2, coins);
      child := NewIndividual(childParams);
    }

    /** `Mutate`: each parameter whose draw is below the rate gets its normal sample
        added and is clamped to [-1, 1]; the fitness is kept. */
    method Mutate(individual: Individual<seq<real>>, coins: seq<real>, noise: seq<real>)
      returns (mutated: Individual<seq<real>>)
      requires |coins| >= |individual.parameters| && |noise| >= |individual.parameters|
      ensures mutated == Individual(Mutated(individual.parameters, coins, noise, mMutationRate), individual.fitness)
    {
      var p := individual.parameters;
      MutatedProps(p, coins, noise, mMutationRate);
      ghost var target := Mutated(individual.parameters, coins, noise, mMutationRate);
      for j := 0 to |p|
        invariant |p| == |individual.parameters|
        invariant forall k :: 0 <= k < j ==> p[k] == target[k]
        invariant forall k :: j <= k < |p| ==> p[k] == individual.parameters[k]
      {
        if coins[j] < mMutationRate {
          p := p[j := p[j] + noise[j]];
          p := p[j := Clamp(p[j], -1.0, 1.0)];
        }
      }
      assert p == target;
      mutated := Individual(p, individual.fitness);
    }

    function GetCurrentGeneration(): nat reads this { mCurrentGeneration }
    function GetMaxGenerations(): nat reads this { mMaxGenerations }
    function GetBestScore(): real reads this { mBestIndividual.fitness }
    function GetPopulationSize(): nat reads this { mPopulationSize }
    function GetBestNetworkParameters(): seq<real> reads this { mBestIndividual.parameters }
    function GetPopulation(): seq<Individual<seq<real>>> reads this { mPopulation }

    /** One more generation uses up one remaining iteration, and completion stays. */
    lemma CounterStep(before: nat)
      requires mCurrentGeneration == before + 1
      ensures before >= mMaxGenerations ==> IsTrainingComplete()
      ensures before < mMaxGenerations ==> IterationsLeft() == mMaxGenerations - before - 1
    {
    }

    /** The iterations still to run: the generations between the counter and the maximum. */
    function IterationsLeft(): nat
      reads this
    {
      if mCurrentGeneration < mMaxGenerations then mMaxGenerations - mCurrentGeneration else 0
    }

    /** Training is complete once the generation count reaches the maximum, that is,
        exactly when no iteration is left to run. */
    predicate IsTrainingComplete()
      reads this
      ensures IsTrainingComplete() <==> IterationsLeft() == 0
    {
      mCurrentGeneration >= mMaxGenerations
    }
  }

  /** A reordering keeps every individual's size and range. */
  lemma ReorderKeeps(before: seq<Individual<seq<real>>>, after: seq<Individual<seq<real>>>, paramCount: nat)
    requires multiset(after) == multiset(before)
    ensures AllSized(before, paramCount) ==> AllSized(after, paramCount)
    ensures AllInUnitRange(before) ==> AllInUnitRange(after)
  {
    forall i | 0 <= i < |after| ensures after[i] in before {
      assert after[i] in multiset(after);
    }
  }

  /** Evaluation keeps every individual's parameters, so their size and range. */
  lemma EvaluatedKeeps(population: seq<Individual<seq<real>>>, score: (nat, seq<real>) -> real, paramCount: nat)
    ensures AllSized(population, paramCount) ==> AllSized(Evaluated(population, score), paramCount)
    ensures AllInUnitRange(population) ==> AllInUnitRange(Evaluated(population, score))
  {
  }

  /** Size and range hold of every prefix. */
  lemma PrefixKeeps(a: seq<Individual<seq<real>>>, n: nat, paramCount: nat)
    requires n <= |a|
    ensures AllSized(a, paramCount) ==> AllSized(a[..n], paramCount)
    ensures AllInUnitRange(a) ==> AllInUnitRange(a[..n])
  {
  }

  /** Size and range hold of a concatenation when they hold of both parts. */
  lemma ConcatKeeps(a: seq<Individual<seq<real>>>, b: seq<Individual<seq<real>>>, paramCount: nat)
    ensures AllSized(a, paramCount) && AllSized(b, paramCount) ==> AllSized(a + b, paramCount)
    ensures AllInUnitRange(a) && AllInUnitRange(b) ==> AllInUnitRange(a + b)
  {
    if AllSized(a, paramCount) && AllSized(b, paramCount) {
      forall i | 0 <= i < |a + b| ensures |(a + b)[i].parameters| == paramCount {
        if i >= |a| { assert (a + b)[i] == b[i - |a|]; }
      }
    }
    if AllInUnitRange(a) && AllInUnitRange(b) {
      forall i | 0 <= i < |a + b| ensures InUnitRange((a + b)[i].parameters) {
        if i >= |a| { assert (a + b)[i] == b[i - |a|]; }
      }
    }
  }
}
