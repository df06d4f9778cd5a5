/** The Lander05 genetic-algorithm trainer: the same generation loop as Lander04,
    but each individual's parameters are a matrix pack (one augmented matrix per
    layer transition), and crossover and mutation walk its cells layer by layer,
    row by row, column by column. The generator's output is supplied per call as
    in Lander04: the `k`-th cell visited takes draw `k`. */
module Ga05 {
  import opened NetModel
  import opened Genetic
  import Ga04
  import Tc1
  import CommonNet

  /** Every cell of the pack lies in [-1, 1]. */
  predicate PackInUnitRange(L: seq<Matrix>)
  {
    Ga04.InUnitRange(Flatten(L))
  }

  /** The crossover of two packs: the Lander04 crossover of their flat forms, cut
      back into matrices. */
  function CrossedPack(arch: Arch, p1: seq<Matrix>, p2: seq<Matrix>, coins: seq<real>): (child: seq<Matrix>)
    requires Shaped(arch, p1) && Shaped(arch, p2) && |coins| >= TotalParams(arch)
    ensures Shaped(arch, child)
  {
    UnflattenFlatten(arch, p1);
    UnflattenFlatten(arch, p2);
    Unflatten(arch, Ga04.Crossed(Flatten(p1), Flatten(p2), coins))
  }

  /** Cell `(l, r, c)` of the crossover, visited `FlatIndex(arch, l, r, c)`-th:
      from the first parent when that draw is below one half, otherwise from the
      second. */
  lemma CrossedPackAt(arch: Arch, p1: seq<Matrix>, p2: seq<Matrix>, coins: seq<real>, l: nat, r: nat, c: nat)
    requires Shaped(arch, p1) && Shaped(arch, p2) && |coins| >= TotalParams(arch)
    requires l < |p1| && r < |p1[l]| && c < |p1[l][r]|
    ensures FlatIndex(arch, l, r, c) < |coins|
    ensures CrossedPack(arch, p1, p2, coins)[l][r][c] ==
            (if coins[FlatIndex(arch, l, r, c)] < 0.5 then p1[l][r][c] else p2[l][r][c])
  {
    FlattenLength(arch, p1);
    FlattenLength(arch, p2);
    Ga04.CrossedFromParents(Flatten(p1), Flatten(p2), coins);
    UnflattenAt(arch, Ga04.Crossed(Flatten(p1), Flatten(p2), coins), l, r, c);
    FlattenAt(arch, p1, l, r, c);
    FlattenAt(arch, p2, l, r, c);
  }

  /** Children of packs in [-1, 1] are in [-1, 1]. */
  lemma CrossedPackInRange(arch: Arch, p1: seq<Matrix>, p2: seq<Matrix>, coins: seq<real>)
    requires Shaped(arch, p1) && Shaped(arch, p2) && |coins| >= TotalParams(arch)
    requires PackInUnitRange(p1) && PackInUnitRange(p2)
    ensures PackInUnitRange(CrossedPack(arch, p1, p2, coins))
  {
    UnflattenFlatten(arch, p1);
    UnflattenFlatten(arch, p2);
    Ga04.CrossedFromParents(Flatten(p1), Flatten(p2), coins);
    UnflattenInRange(arch, Ga04.Crossed(Flatten(p1), Flatten(p2), coins));
  }

  /** A flat vector in [-1, 1] of exactly the parameter count cuts into a pack in
      [-1, 1]. */
  lemma UnflattenInRange(arch: Arch, flat: seq<real>)
    requires |arch| >= 1 && |flat| == TotalParams(arch) && Ga04.InUnitRange(flat)
    ensures PackInUnitRange(Unflatten(arch, flat))
  {
    FlattenUnflatten(arch, flat);
    assert flat[..TotalParams(arch)] == flat;
  }

  /** The mutation of a pack: the Lander04 mutation of its flat form, cut back into
      matrices. */
  function MutatedPack(arch: Arch, p: seq<Matrix>, coins: seq<real>, noise: seq<real>, rate: real): (q: seq<Matrix>)
    requires Shaped(arch, p) && |coins| >= TotalParams(arch) && |noise| >= TotalParams(arch)
    ensures Shaped(arch, q)
  {
    UnflattenFlatten(arch, p);
    Unflatten(arch, Ga04.Mutated(Flatten(p), coins, noise, rate))
  }

  /** Cell `(l, r, c)` of the mutation, visited `FlatIndex(arch, l, r, c)`-th: given
      that sample and clamped to [-1, 1] when that draw is below the rate,
      otherwise unchanged. */
  lemma MutatedPackAt(arch: Arch, p: seq<Matrix>, coins: seq<real>, noise: seq<real>, rate: real, l: nat, r: nat, c: nat)
    requires Shaped(arch, p) && |coins| >= TotalParams(arch) && |noise| >= TotalParams(arch)
    requires l < |p| && r < |p[l]| && c < |p[l][r]|
    ensures FlatIndex(arch, l, r, c) < |coins| && FlatIndex(arch, l, r, c) < |noise|
    ensures MutatedPack(arch, p, coins, noise, rate)[l][r][c] ==
            (if coins[FlatIndex(arch, l, r, c)] < rate
             then Clamp(p[l][r][c] + noise[FlatIndex(arch, l, r, c)], -1.0, 1.0)
             else p[l][r][c])
  {
    FlattenLength(arch, p);
    Ga04.MutatedProps(Flatten(p), coins, noise, rate);
    UnflattenAt(arch, Ga04.Mutated(Flatten(p), coins, noise, rate), l, r, c);
    FlattenAt(arch, p, l, r, c);
  }

  /** Mutation keeps a pack in [-1, 1]. */
  lemma MutatedPackInRange(arch: Arch, p: seq<Matrix>, coins: seq<real>, noise: seq<real>, rate: real)
    requires Shaped(arch, p) && |coins| >= TotalParams(arch) && |noise| >= TotalParams(arch)
    requires PackInUnitRange(p)
    ensures PackInUnitRange(MutatedPack(arch, p, coins, noise, rate))
  {
    UnflattenFlatten(arch, p);
    Ga04.MutatedProps(Flatten(p), coins, noise, rate);
    UnflattenInRange(arch, Ga04.Mutated(Flatten(p), coins, noise, rate));
  }

  /** Every individual's parameters have the shapes of `arch`. */
  predicate AllShaped(arch: Arch, population: seq<Individual<seq<Matrix>>>)
  {
    forall i :: 0 <= i < |population| ==> Shaped(arch, population[i].parameters)
  }

  /** Every individual's parameters lie in [-1, 1]. */
  predicate AllPacksInUnitRange(population: seq<Individual<seq<Matrix>>>)
  {
    forall i :: 0 <= i < |population| ==> PackInUnitRange(population[i].parameters)
  }

  /** The child that `d` breeds from `population`: two tournament winners crossed,
      then mutated, not yet evaluated. */
  function Child(arch: Arch, population: seq<Individual<seq<Matrix>>>, d: Ga04.ChildDraws, rate: real)
    : Individual<seq<Matrix>>
    requires |population| > 0 && Ga04.ChildDrawsFor(d, |population|, TotalParams(arch))
    requires AllShaped(arch, population)
  {
    var p1 := Winner(population, d.selection1);
    var p2 := Winner(population, d.selection2);
    NewIndividual(MutatedPack(arch, CrossedPack(arch, p1.parameters, p2.parameters, d.crossover), d.mutation, d.noise, rate))
  }

  /** The first `n` children, bred in order. */
  function Children(arch: Arch, population: seq<Individual<seq<Matrix>>>, draws: seq<Ga04.ChildDraws>, n: nat, rate: real)
    : (cs: seq<Individual<seq<Matrix>>>)
    requires |population| > 0 && n <= |draws|
    requires Ga04.AllDrawsFor(draws, |population|, TotalParams(arch))
    requires AllShaped(arch, population)
    ensures |cs| == n
    ensures forall k :: 0 <= k < n ==> cs[k] == Child(arch, population, draws[k], rate)
  {
    seq(n, k requires 0 <= k < n => Child(arch, population, draws[k], rate))
  }

  /** Children are unevaluated, have the shapes of `arch`, and stay in [-1, 1] when
      the population is. */
  lemma ChildrenProps(arch: Arch, population: seq<Individual<seq<Matrix>>>,
                                         draws: seq<Ga04.ChildDraws>, n: nat, rate: real)
    requires |population| > 0 && n <= |draws|
    requires Ga04.AllDrawsFor(draws, |population|, TotalParams(arch))
    requires AllShaped(arch, population)
    ensures forall k :: 0 <= k < n ==> Children(arch, population, draws, n, rate)[k].fitness == LOWEST
    ensures AllShaped(arch, Children(arch, population, draws, n, rate))
    ensures AllPacksInUnitRange(population) ==> AllPacksInUnitRange(Children(arch, population, draws, n, rate))
  {
    forall k | 0 <= k < n
      ensures Child(arch, population, draws[k], rate).fitness == LOWEST
      ensures Shaped(arch, Child(arch, population, draws[k], rate).parameters)
      ensures AllPacksInUnitRange(population) ==> PackInUnitRange(Child(arch, population, draws[k], rate).parameters)
    {
      ChildProps(arch, population, draws[k], rate);
    }
  }

  /** A child is unevaluated, has the shapes of `arch`, and is in [-1, 1] when the
      population is. */
  lemma ChildProps(arch: Arch, population: seq<Individual<seq<Matrix>>>, d: Ga04.ChildDraws, rate: real)
    requires |population| > 0 && Ga04.ChildDrawsFor(d, |population|, TotalParams(arch))
    requires AllShaped(arch, population)
    ensures Child(arch, population, d, rate).fitness == LOWEST
    ensures Shaped(arch, Child(arch, population, d, rate).parameters)
    ensures AllPacksInUnitRange(population) ==> PackInUnitRange(Child(arch, population, d, rate).parameters)
  {
    var p1 := Winner(population, d.selection1);
    var p2 := Winner(population, d.selection2);
    if AllPacksInUnitRange(population) {
      CrossedPackInRange(arch, p1.parameters, p2.parameters, d.crossover);
      MutatedPackInRange(arch, CrossedPack(arch, p1.parameters, p2.parameters, d.crossover), d.mutation, d.noise, rate);
    }
  }

  /** The new generation: the elite prefix of the old population, then children
      until there are `populationSize` individuals. */
  ghost function NextGeneration(arch: Arch, populationSize: nat, rate: real,
                                population: seq<Individual<seq<Matrix>>>, draws: seq<Ga04.ChildDraws>)
    : seq<Individual<seq<Matrix>>>
    requires |population| > 0 && |draws| >= populationSize
    requires Ga04.AllDrawsFor(draws, |population|, TotalParams(arch))
    requires AllShaped(arch, population)
  {
    var e := if EliteCount(populationSize) < |population| then EliteCount(populationSize) else |population|;
    population[..e] + Children(arch, population, draws, populationSize - e, rate)
  }

  class TrainingTaskGA {
    const netArch: Arch
    const mMaxGenerations: nat
    const mPopulationSize: nat
    var mCurrentGeneration: nat
    const mMutationRate: real
    /** The standard deviation of the normal samples, which arrive already drawn. */
    const mMutationStrength: real
    var mPopulation: seq<Individual<seq<Matrix>>>
    var mBestIndividual: Individual<seq<Matrix>>

    ghost predicate Valid()
      reads this
    {
      |netArch| >= 2 && |mPopulation| == mPopulationSize && AllShaped(netArch, mPopulation) &&
      Shaped(netArch, mBestIndividual.parameters)
    }

    /** Every individual's parameters lie in [-1, 1]. */
    ghost predicate Bounded()
      reads this
    {
      AllPacksInUnitRange(mPopulation)
    }

    /** The constructor: the parameters stored, then `mPopulationSize` individuals,
        each filled through `fillNetParams` in the one work buffer from its own list
        of normal samples, one per parameter in visiting order. The best individual
        starts default-constructed: unevaluated, its matrices of the right shapes. */
    constructor (netArch: Arch, maxGenerations: nat, populationSize: nat, mutationRate: real,
                 mutationStrength: real, draws: seq<seq<real>>)
      requires |netArch| >= 2 && |draws| == populationSize
      requires forall i :: 0 <= i < |draws| ==> |draws[i]| == TotalParams(netArch)
      ensures Valid()
      ensures this.netArch == netArch && mMaxGenerations == maxGenerations
      ensures mPopulationSize == populationSize && mMutationRate == mutationRate
      ensures mCurrentGeneration == 0 && mBestIndividual.fitness == LOWEST
      ensures forall i :: 0 <= i < |mPopulation| ==> mPopulation[i] == NewIndividual(Unflatten(netArch, draws[i]))
    {
      this.netArch := netArch;
      mMaxGenerations := maxGenerations;
      mPopulationSize := populationSize;
      mMutationRate := mutationRate;
      mMutationStrength := mutationStrength;
      mCurrentGeneration := 0;
      mBestIndividual := NewIndividual(CommonNet.ZeroLayers(netArch));
      new;
      mPopulation := FillPopulation(netArch, draws);
    }

    /** The loop of the constructor: the work buffer refilled from each individual's
        samples and copied into a new individual. */
    static method FillPopulation(arch: Arch, draws: seq<seq<real>>) returns (population: seq<Individual<seq<Matrix>>>)
      requires |arch| >= 1
      requires forall i :: 0 <= i < |draws| ==> |draws[i]| == TotalParams(arch)
      ensures |population| == |draws| && AllShaped(arch, population)
      ensures forall i :: 0 <= i < |draws| ==> population[i] == NewIndividual(Unflatten(arch, draws[i]))
    {
      var paramsWorkBuff := CommonNet.ZeroLayers(arch);
      population := [];
      for i := 0 to |draws|
        invariant Shaped(arch, paramsWorkBuff)
        invariant |population| == i
        invariant forall k :: 0 <= k < i ==> population[k] == NewIndividual(Unflatten(arch, draws[k]))
      {
        var d := draws[i];
        paramsWorkBuff := Tc1.FillNetParams(arch, (k: nat, l: nat, r: nat, c: nat) => Draw(d, k), paramsWorkBuff);
        FilledFromBuffer(arch, d, paramsWorkBuff);
        population := population + [NewIndividual(paramsWorkBuff)];
      }
    }

    /** `RunIteration` with `useThread == false`: later generations are bred first,
        every generation is evaluated, the population sorted by descending fitness,
        the best individual replaced only by a strictly fitter head, and the
        generation counter advanced by one. */
    method RunIteration(score: (nat, seq<Matrix>) -> real, draws: seq<Ga04.ChildDraws>)
      requires Valid() && mPopulationSize > 0
      requires mCurrentGeneration != 0 ==>
                 |draws| >= mPopulationSize && Ga04.AllDrawsFor(draws, mPopulationSize, TotalParams(netArch))
      modifies this
      ensures Valid()
      ensures mCurrentGeneration == old(mCurrentGeneration) + 1
      ensures old(mCurrentGeneration) == 0 ==>
                mPopulation == SortByFitness(Evaluated(old(mPopulation), score))
      ensures old(mCurrentGeneration) != 0 ==>
                mPopulation == SortByFitness(Evaluated(
                  NextGeneration(netArch, mPopulationSize, mMutationRate, old(mPopulation), draws), score))
      ensures mBestIndividual == UpdateBest(old(mBestIndividual), mPopulation)
      ensures old(Bounded()) ==> Bounded()
      ensures old(IsTrainingComplete()) ==> IsTrainingComplete()
      ensures !old(IsTrainingComplete()) ==> IterationsLeft() == old(IterationsLeft()) - 1
    {
      ProduceGeneration(score, draws);
      mCurrentGeneration := mCurrentGeneration + 1;
      CounterStep(old(mCurrentGeneration));
    }

    /** The population work of one iteration: later generations are bred first,
        then the population is evaluated and sorted and the best individual kept.
        The generation count is left to the caller. */
    method ProduceGeneration(score: (nat, seq<Matrix>) -> real, draws: seq<Ga04.ChildDraws>)
      requires Valid() && mPopulationSize > 0
      requires mCurrentGeneration != 0 ==>
                 |draws| >= mPopulationSize && Ga04.AllDrawsFor(draws, mPopulationSize, TotalParams(netArch))
      modifies this
      ensures Valid()
      ensures mCurrentGeneration == old(mCurrentGeneration)
      ensures old(mCurrentGeneration) == 0 ==>
                mPopulation == SortByFitness(Evaluated(old(mPopulation), score))
      ensures old(mCurrentGeneration) != 0 ==>
                mPopulation == SortByFitness(Evaluated(
                  NextGeneration(netArch, mPopulationSize, mMutationRate, old(mPopulation), draws), score))
      ensures mBestIndividual == UpdateBest(old(mBestIndividual), mPopulation)
      ensures old(Bounded()) ==> Bounded()
    {
      if mCurrentGeneration != 0 {
        Evolve(draws);
      }
      EvaluatePopulation(score);
      SortAndKeepBest();
    }

    /** `evaluatePopulation` run inline: every individual's fitness set to its mean
        score over the simulation variants. */
    method EvaluatePopulation(score: (nat, seq<Matrix>) -> real)
      modifies this
      ensures mPopulation == Evaluated(old(mPopulation), score)
      ensures mCurrentGeneration == old(mCurrentGeneration) && mBestIndividual == old(mBestIndividual)
      ensures AllShaped(netArch, old(mPopulation)) ==> AllShaped(netArch, mPopulation)
      ensures old(Bounded()) ==> Bounded()
    {
      EvaluatedKeeps(netArch, mPopulation, score);
      mPopulation := EvaluateAll(mPopulation, score);
    }

    /** The tail of `RunIteration`: the population sorted by descending fitness and
        the best individual replaced only by a strictly fitter head. */
    method SortAndKeepBest()
      requires Valid() && mPopulationSize > 0
      modifies this
      ensures Valid()
      ensures mPopulation == SortByFitness(old(mPopulation))
      ensures mBestIndividual == UpdateBest(old(mBestIndividual), mPopulation)
      ensures mCurrentGeneration == old(mCurrentGeneration)
      ensures old(Bounded()) ==> Bounded()
    {
      ghost var unsorted := mPopulation;
      mPopulation := SortByFitness(mPopulation);
      ReorderKeeps(netArch, unsorted, mPopulation);
      if mPopulation[0].fitness > mBestIndividual.fitness {
        mBestIndividual := mPopulation[0];
      }
    }

    /** `evolve`: the elite prefix kept, then children bred from the old population
        until the population is full again. */
    method Evolve(draws: seq<Ga04.ChildDraws>)
      requires Valid() && mPopulationSize > 0 && |draws| >= mPopulationSize
      requires Ga04.AllDrawsFor(draws, mPopulationSize, TotalParams(netArch))
      modifies this
      ensures Valid()
      ensures mPopulation == NextGeneration(netArch, mPopulationSize, mMutationRate, old(mPopulation), draws)
      ensures mCurrentGeneration == old(mCurrentGeneration) && mBestIndividual == old(mBestIndividual)
      ensures old(Bounded()) ==> Bounded()
    {
      var oldPopulation := mPopulation;
      var eliteCount := EliteCount(mPopulationSize);
      var elite := KeepElite(oldPopulation, eliteCount);
      var population := Breed(oldPopulation, elite, draws);
      ghost var children := Children(netArch, oldPopulation, draws, mPopulationSize - |elite|, mMutationRate);
      ChildrenProps(netArch, oldPopulation, draws, mPopulationSize - |elite|, mMutationRate);
      PrefixKeeps(netArch, oldPopulation, |elite|);
      ConcatKeeps(netArch, elite, children);
      assert population == NextGeneration(netArch, mPopulationSize, mMutationRate, oldPopulation, draws);
      mPopulation := population;
    }

    /** The second loop of `evolve`: children bred from the old population, two
        tournament winners crossed and mutated, until the population is full. */
    method Breed(oldPopulation: seq<Individual<seq<Matrix>>>, elite: seq<Individual<seq<Matrix>>>,
                 draws: seq<Ga04.ChildDraws>)
      returns (population: seq<Individual<seq<Matrix>>>)
      requires |oldPopulation| > 0 && |elite| <= mPopulationSize <= |draws|
      requires Ga04.AllDrawsFor(draws, |oldPopulation|, TotalParams(netArch))
      requires AllShaped(netArch, oldPopulation)
      ensures population == elite + Children(netArch, oldPopulation, draws, mPopulationSize - |elite|, mMutationRate)
    {
      var children := [];
      while |elite| + |children| < mPopulationSize
        invariant |elite| + |children| <= mPopulationSize
        invariant children == Children(netArch, oldPopulation, draws, |children|, mMutationRate)
        decreases mPopulationSize - |children|
      {
        var child := BreedChild(oldPopulation, draws[|children|]);
        children := children + [child];
      }
      population := elite + children;
    }

    /** One pass of the second loop of `evolve`: two parents selected, crossed and
        the child mutated. */
    method BreedChild(oldPopulation: seq<Individual<seq<Matrix>>>, d: Ga04.ChildDraws)
      returns (child: Individual<seq<Matrix>>)
      requires |oldPopulation| > 0 && Ga04.ChildDrawsFor(d, |oldPopulation|, TotalParams(netArch))
      requires AllShaped(netArch, oldPopulation)
      ensures child == Child(netArch, oldPopulation, d, mMutationRate)
    {
      var parent1 := SelectParent(oldPopulation, d.selection1);
      var parent2 := SelectParent(oldPopulation, d.selection2);
      child := Crossover(parent1, parent2, d.crossover);
      child := Mutate(child, d.mutation, d.noise);
    }

    /** `Crossover`: a fresh pack whose cells are visited in order, cell `k` copied
        from the first parent when draw `k` is below one half, otherwise from the
        second. */
    method Crossover(parent1: Individual<seq<Matrix>>, parent2: Individual<seq<Matrix>>, coins: seq<real>)
      returns (child: Individual<seq<Matrix>>)
      requires Shaped(netArch, parent1.parameters) && Shaped(netArch, parent2.parameters)
      requires |coins| >= TotalParams(netArch)
      ensures child == NewIndividual(CrossedPack(netArch, parent1.parameters, parent2.parameters, coins))
    {
      var p1 := parent1.parameters;
      var p2 := parent2.parameters;
      var childParams := CommonNet.ZeroLayers(netArch);
      var count;
      childParams, count := MapCells(netArch, childParams,
        (k: nat, l: nat, r: nat, c: nat, v: real) => if Draw(coins, k) < 0.5 then Cell(p1, l, r, c) else Cell(p2, l, r, c));
      ghost var target := CrossedPack(netArch, p1, p2, coins);
      forall l, r, c | 0 <= l < |childParams| && 0 <= r < |childParams[l]| && 0 <= c < |childParams[l][r]|
        ensures childParams[l][r][c] == target[l][r][c]
      {
        CrossedPackAt(netArch, p1, p2, coins, l, r, c);
        assert Cell(p1, l, r, c) == p1[l][r][c] && Cell(p2, l, r, c) == p2[l][r][c];
      }
      SamePack(netArch, childParams, target);
      child := NewIndividual(childParams);
    }

    /** `mutate`: cells visited in order, cell `k` given sample `k` and clamped to
        [-1, 1] when draw `k` is below the rate; the fitness is kept. */
    method Mutate(individual: Individual<seq<Matrix>>, coins: seq<real>, noise: seq<real>)
      returns (mutated: Individual<seq<Matrix>>)
      requires Shaped(netArch, individual.parameters)
      requires |coins| >= TotalParams(netArch) && |noise| >= TotalParams(netArch)
      ensures mutated == Individual(MutatedPack(netArch, individual.parameters, coins, noise, mMutationRate),
                                    individual.fitness)
    {
      var p := individual.parameters;
      var rate := mMutationRate;
      var layers, count := MapCells(netArch, p,
        (k: nat, l: nat, r: nat, c: nat, v: real) => if Draw(coins, k) < rate then Clamp(v + Draw(noise, k), -1.0, 1.0) else v);
      ghost var target := MutatedPack(netArch, p, coins, noise, rate);
      forall l, r, c | 0 <= l < |layers| && 0 <= r < |layers[l]| && 0 <= c < |layers[l][r]|
        ensures layers[l][r][c] == target[l][r][c]
      {
        MutatedPackAt(netArch, p, coins, noise, rate, l, r, c);
      }
      SamePack(netArch, layers, target);
      mutated := Individual(layers, individual.fitness);
    }

    function GetCurrentGeneration(): nat reads this { mCurrentGeneration }
    function GetMaxGenerations(): nat { mMaxGenerations }
    function GetBestScore(): real reads this { mBestIndividual.fitness }
    function GetPopulationSize(): nat { mPopulationSize }
    function GetBestNetworkParameters(): seq<Matrix> reads this { mBestIndividual.parameters }
    function GetPopulation(): seq<Individual<seq<Matrix>>> reads this { mPopulation }

    /** One more generation uses up one remaining iteration, and completion stays. */
    lemma CounterStep(before: nat)
      requires mCurrentGeneration == before + 1
      ensures before >= mMaxGenerations ==> IsTrainingComplete()
      ensures before < mMaxGenerations ==> IterationsLeft() == mMaxGenerations - before - 1
    {
    }

    /** The iterations still to run: the generations between the counter and the maximum. */
    function IterationsLeft(): nat
      reads this
    {
      if mCurrentGeneration < mMaxGenerations then mMaxGenerations - mCurrentGeneration else 0
    }

    /** Training is complete once the generation count reaches the maximum, that is,
        exactly when no iteration is left to run. */
    predicate IsTrainingComplete()
      reads this
      ensures IsTrainingComplete() <==> IterationsLeft() == 0
    {
      mCurrentGeneration >= mMaxGenerations
    }
  }

  /** A reordering keeps every individual's shapes and range. */
  lemma ReorderKeeps(arch: Arch, before: seq<Individual<seq<Matrix>>>, after: seq<Individual<seq<Matrix>>>)
    requires multiset(after) == multiset(before)
    ensures AllShaped(arch, before) ==> AllShaped(arch, after)
    ensures AllPacksInUnitRange(before) ==> AllPacksInUnitRange(after)
  {
    forall i | 0 <= i < |after| ensures after[i] in before {
      assert after[i] in multiset(after);
    }
  }

  /** Evaluation keeps every individual's parameters, so their shapes and range. */
  lemma EvaluatedKeeps(arch: Arch, population: seq<Individual<seq<Matrix>>>, score: (nat, seq<Matrix>) -> real)
    ensures AllShaped(arch, population) ==> AllShaped(arch, Evaluated(population, score))
    ensures AllPacksInUnitRange(population) ==> AllPacksInUnitRange(Evaluated(population, score))
  {
  }

  /** Shapes and range hold of every prefix. */
  lemma PrefixKeeps(arch: Arch, a: seq<Individual<seq<Matrix>>>, n: nat)
    requires n <= |a|
    ensures AllShaped(arch, a) ==> AllShaped(arch, a[..n])
    ensures AllPacksInUnitRange(a) ==> AllPacksInUnitRange(a[..n])
  {
  }

  /** Shapes and range hold of a concatenation when they hold of both parts. */
  lemma ConcatKeeps(arch: Arch, a: seq<Individual<seq<Matrix>>>, b: seq<Individual<seq<Matrix>>>)
    ensures AllShaped(arch, a) && AllShaped(arch, b) ==> AllShaped(arch, a + b)
    ensures AllPacksInUnitRange(a) && AllPacksInUnitRange(b) ==> AllPacksInUnitRange(a + b)
  {
    if AllShaped(arch, a) && AllShaped(arch, b) {
      forall i | 0 <= i < |a + b| ensures Shaped(arch, (a + b)[i].parameters) {
        if i >= |a| { assert (a + b)[i] == b[i - |a|]; }
      }
    }
    if AllPacksInUnitRange(a) && AllPacksInUnitRange(b) {
      forall i | 0 <= i < |a + b| ensures PackInUnitRange((a + b)[i].parameters) {
        if i >= |a| { assert (a + b)[i] == b[i - |a|]; }
      }
    }
  }
}
