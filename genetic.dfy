/** What the two genetic-algorithm trainers share: an individual (parameters and a
    fitness), the descending sort by fitness, tournament selection over a shuffled
    index list, and fitness as the mean score over the fixed simulation variants.
    The parameter type `P` is a flat vector in one trainer and a matrix pack in
    the other. */
module Genetic {

  /** `-std::numeric_limits<double>::max()`, the fitness of an individual that has
      not been evaluated yet: `-(2^53 - 1) * 2^971`, written out. */
  const LOWEST: real := -179769313486231570814527423731704356798070567525844996598917476803157260780028538760589558632766878171540458953514382464234321326889464182768467546703537516986049910576551282076245490090389328944075868508455133942304583236903222948165808559332123348274797826204144723168738177180919299881250404026184124858368.0

  /** The first simulation seed and the number of simulation variants each
      individual is scored on. */
  const SIM_START_SEED: nat := 1134
  const SIM_VARIANTS: nat := 10

  /** The tournament size of parent selection. */
  const TOURNAMENT_SIZE: nat := 3

  datatype Individual<P> = Individual(parameters: P, fitness: real)

  /** A fresh individual: given parameters, not yet evaluated. */
  function NewIndividual<P>(params: P): (ind: Individual<P>)
    ensures ind.parameters == params && ind.fitness == LOWEST
  {
    Individual(params, LOWEST)
  }

  // ---------------------------------------------------------------------------
  // Sorting by descending fitness

  /** Ordered as `std::sort` orders with `operator<` defined as `fitness > other.fitness`:
      fitness non-increasing. */
  predicate SortedDesc<P>(pop: seq<Individual<P>>)
  {
    forall i, j :: 0 <= i < j < |pop| ==> pop[i].fitness >= pop[j].fitness
  }

  /** `x` placed before the first member of `s` it is not worse than. */
  function Insert<P>(x: Individual<P>, s: seq<Individual<P>>): (r: seq<Individual<P>>)
    requires SortedDesc(s)
    ensures SortedDesc(r)
    ensures multiset(r) == multiset(s) + multiset{x}
    ensures |r| == |s| + 1
    ensures r[0] == x || (|s| > 0 && r[0] == s[0])
  {
    if |s| == 0 then [x]
    else if x.fitness >= s[0].fitness then [x] + s
    else
      var rest := Insert(x, s[1..]);
      assert s == [s[0]] + s[1..];
      assert forall j :: 0 <= j < |rest| ==> rest[0].fitness >= rest[j].fitness;
      [s[0]] + rest
  }

  /** The population in descending order of fitness: a reordering of its members.
      `std::sort` leaves the order of equal fitnesses unspecified; this sort is one
      such order. */
  function SortByFitness<P>(pop: seq<Individual<P>>): (r: seq<Individual<P>>)
    ensures SortedDesc(r)
    ensures multiset(r) == multiset(pop)
    ensures |r| == |pop|
  {
    if |pop| == 0 then []
    else
      assert pop == [pop[0]] + pop[1..];
      Insert(pop[0], SortByFitness(pop[1..]))
  }

  // ---------------------------------------------------------------------------
  // Tournament selection

  /** How many shuffled indices the tournament looks at: three, or fewer when the
      population is smaller. */
  function TournamentSize(n: nat): (t: nat)
    ensures t <= n && t <= TOURNAMENT_SIZE
    ensures n > 0 ==> t > 0
  {
    if n < TOURNAMENT_SIZE then n else TOURNAMENT_SIZE
  }

  /** A shuffled index list for a population of `n`: `n` entries, each a valid
      position (a shuffle of `0 .. n-1`). */
  predicate IndicesFor(indices: seq<nat>, n: nat)
  {
    |indices| == n && forall i :: 0 <= i < n ==> indices[i] < n
  }

  /** The position in `indices` of the winner among its first `k` entries: the
      first entry, replaced only by a strictly fitter later one. */
  function WinnerPos<P>(pop: seq<Individual<P>>, indices: seq<nat>, k: nat): (w: nat)
    requires IndicesFor(indices, |pop|) && 0 < k <= |pop|
    ensures w < k
  {
    if k == 1 then 0
    else
      var b := WinnerPos(pop, indices, k - 1);
      if pop[indices[k - 1]].fitness > pop[indices[b]].fitness then k - 1 else b
  }

  /** The tournament winner is at least as fit as every contestant, and strictly
      fitter than every contestant drawn before it: among equally fit contestants
      the earliest drawn wins. */
  lemma {:induction false} WinnerIsBest<P>(pop: seq<Individual<P>>, indices: seq<nat>, k: nat)
    requires IndicesFor(indices, |pop|) && 0 < k <= |pop|
    ensures forall j :: 0 <= j < k ==>
              pop[indices[j]].fitness <= pop[indices[WinnerPos(pop, indices, k)]].fitness
    ensures forall j :: 0 <= j < WinnerPos(pop, indices, k) ==>
              pop[indices[j]].fitness < pop[indices[WinnerPos(pop, indices, k)]].fitness
  {
    if k > 1 {
      WinnerIsBest(pop, indices, k - 1);
    }
  }

  /** The tournament winner over the shuffled `indices`. */
  function Winner<P>(population: seq<Individual<P>>, indices: seq<nat>): Individual<P>
    requires |population| > 0 && IndicesFor(indices, |population|)
  {
    population[indices[WinnerPos(population, indices, TournamentSize(|population|))]]
  }

  /** `SelectParent`: the fittest of the first `min(3, n)` shuffled indices, the
      earliest drawn among equals. */
  method SelectParent<P>(population: seq<Individual<P>>, indices: seq<nat>) returns (parent: Individual<P>)
    requires |population| > 0 && IndicesFor(indices, |population|)
    ensures parent == Winner(population, indices)
  {
    var bestIdx := indices[0];
    var i := 1;
    while i < TOURNAMENT_SIZE && i < |indices|
      invariant 1 <= i <= TournamentSize(|population|)
      invariant bestIdx == indices[WinnerPos(population, indices, i)]
    {
      if population[indices[i]].fitness > population[bestIdx].fitness {
        bestIdx := indices[i];
      }
      i := i + 1;
    }
    parent := population[bestIdx];
  }

  // ---------------------------------------------------------------------------
  // Fitness

  /** The scores of the first `n` simulation variants, added up. */
  function ScoreSum<P>(score: (nat, P) -> real, params: P, n: nat): real
  {
    if n == 0 then 0.0 else ScoreSum(score, params, n - 1) + score(SIM_START_SEED + n - 1, params)
  }

  /** Fitness: the mean score over seeds `1134 .. 1143`. */
  function Fitness<P>(score: (nat, P) -> real, params: P): real
  {
    ScoreSum(score, params, SIM_VARIANTS) / SIM_VARIANTS as real
  }

  /** A mean lies between the least and the greatest possible score. */
  lemma FitnessBounds<P>(score: (nat, P) -> real, params: P, lo: real, hi: real)
    requires forall s :: lo <= score(s, params) <= hi
    ensures lo <= Fitness(score, params) <= hi
  {
    ScoreSumBounds(score, params, SIM_VARIANTS, lo, hi);
  }

  lemma {:induction false} ScoreSumBounds<P>(score: (nat, P) -> real, params: P, n: nat, lo: real, hi: real)
    requires forall s :: lo <= score(s, params) <= hi
    ensures n as real * lo <= ScoreSum(score, params, n) <= n as real * hi
  {
    if n > 0 {
      ScoreSumBounds(score, params, n - 1, lo, hi);
      assert score(SIM_START_SEED + n - 1, params) <= hi;
      assert lo <= score(SIM_START_SEED + n - 1, params);
    }
  }

  /** The evaluation task of one individual, run inline: the scores of the variants
      added in seed order, divided by their number. */
  method AverageScore<P>(score: (nat, P) -> real, params: P) returns (fitness: real)
    ensures fitness == Fitness(score, params)
  {
    var sum := 0.0;
    for i := 0 to SIM_VARIANTS
      invariant sum == ScoreSum(score, params, i)
    {
      sum := sum + score(SIM_START_SEED + i, params);
    }
    fitness := sum / SIM_VARIANTS as real;
  }

  /** The population with every member's fitness set to its mean score. */
  function Evaluated<P>(population: seq<Individual<P>>, score: (nat, P) -> real): (r: seq<Individual<P>>)
    ensures |r| == |population|
    ensures forall i :: 0 <= i < |r| ==> r[i].parameters == population[i].parameters
  {
    if |population| == 0 then []
    else
      Evaluated(population[..|population| - 1], score) +
      [Individual(population[|population| - 1].parameters, Fitness(score, population[|population| - 1].parameters))]
  }

  lemma {:induction false} EvaluatedAt<P>(population: seq<Individual<P>>, score: (nat, P) -> real, i: nat)
    requires i < |population|
    ensures Evaluated(population, score)[i] == Individual(population[i].parameters, Fitness(score, population[i].parameters))
    decreases |population|
  {
    if i < |population| - 1 {
      EvaluatedAt(population[..|population| - 1], score, i);
    }
  }

  /** The population evaluated in place and in order, each member's task run
      inline: the parameters and the order are untouched. */
  method EvaluateAll<P>(population: seq<Individual<P>>, score: (nat, P) -> real)
    returns (evaluated: seq<Individual<P>>)
    ensures evaluated == Evaluated(population, score)
  {
    evaluated := population;
    for i := 0 to |population|
      invariant |evaluated| == |population|
      invariant forall j :: i <= j < |evaluated| ==> evaluated[j] == population[j]
      invariant forall j :: 0 <= j < i ==>
                  evaluated[j] == Individual(population[j].parameters, Fitness(score, population[j].parameters))
    {
      var f := AverageScore(score, evaluated[i].parameters);
      evaluated := evaluated[i := evaluated[i].(fitness := f)];
    }
    var E := Evaluated(population, score);
    forall i | 0 <= i < |E| ensures evaluated[i] == E[i] {
      EvaluatedAt(population, score, i);
    }
  }

  // ---------------------------------------------------------------------------
  // Elitism and the best-so-far individual

  /** `static_cast<size_t>(populationSize * 0.1)`: the number of elite individuals.
      For population sizes below 2^52 the double product truncates to
      `populationSize / 10`, the exact quotient the model uses. */
  function EliteCount(populationSize: nat): (e: nat)
    ensures 10 * e <= populationSize < 10 * e + 10
  {
    populationSize / 10
  }

  /** The best individual after a generation whose sorted population is `pop`:
      replaced by the head only when the head is strictly fitter. */
  function UpdateBest<P>(best: Individual<P>, pop: seq<Individual<P>>): (r: Individual<P>)
    requires |pop| > 0
    ensures r.fitness >= best.fitness && r.fitness >= pop[0].fitness
    ensures r == best || (r == pop[0] && pop[0].fitness > best.fitness)
  {
    if pop[0].fitness > best.fitness then pop[0] else best
  }

  /** The first loop of `Evolve`/`evolve`: the first `eliteCount` individuals, or all of them
      when there are fewer. */
  method KeepElite<P>(oldPopulation: seq<Individual<P>>, eliteCount: nat)
    returns (elite: seq<Individual<P>>)
    ensures |elite| == (if eliteCount < |oldPopulation| then eliteCount else |oldPopulation|)
    ensures elite == oldPopulation[..|elite|]
  {
    elite := [];
    var i := 0;
    while i < eliteCount && i < |oldPopulation|
      invariant i <= eliteCount && i <= |oldPopulation|
      invariant elite == oldPopulation[..i]
    {
      elite := elite + [oldPopulation[i]];
      i := i + 1;
    }
  }
}
