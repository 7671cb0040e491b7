/**
 * `GeneticAlgorithm` (src/GeneticStrategy.cpp, include/GeneticStrategy.hpp): a population of
 * genes evolved generation by generation by fitness evaluation, tournament selection,
 * pairwise crossover, mutation and elitism. The population is a field the steps reassign;
 * every random draw comes from the `Rng` object, and every property holds for all draws.
 */
module Evolution {
  import opened MarketData
  import opened Genes
  import opened Randomness
  import Fitness

  /** The index `std::max_element` returns when ordering by fitness: the first maximum. */
  function BestIndex(pop: seq<StrategyGene>): (m: nat)
    requires |pop| > 0
    ensures m < |pop|
    ensures forall k :: 0 <= k < |pop| ==> pop[k].fitness <= pop[m].fitness
    ensures forall k :: 0 <= k < m ==> pop[k].fitness < pop[m].fitness
  {
    if |pop| == 1 then 0
    else
      var m := BestIndex(pop[..|pop| - 1]);
      if pop[m].fitness < pop[|pop| - 1].fitness then |pop| - 1 else m
  }

  /** `std::max_element` over the population by fitness: a scan that moves only on a strictly
      larger fitness. */
  method MaxElement(pop: seq<StrategyGene>) returns (m: nat)
    requires |pop| > 0
    ensures m == BestIndex(pop)
  {
    m := 0;
    for i := 1 to |pop|
      invariant m == BestIndex(pop[..i])
    {
      assert pop[..i + 1][..i] == pop[..i];
      if pop[m].fitness < pop[i].fitness {
        m := i;
      }
    }
    assert pop[..|pop|] == pop;
  }

  /** The members at the drawn indices, in draw order. */
  function Drawn(pop: seq<StrategyGene>, draws: seq<nat>): (d: seq<StrategyGene>)
    requires forall k :: 0 <= k < |draws| ==> draws[k] < |pop|
    ensures |d| == |draws| && forall k :: 0 <= k < |draws| ==> d[k] == pop[draws[k]]
  {
    seq(|draws|, k requires 0 <= k < |draws| => pop[draws[k]])
  }

  /** One more draw leaves the earlier maximum in place unless the new member is strictly fitter. */
  lemma DrawnSnoc(pop: seq<StrategyGene>, draws: seq<nat>, c: nat)
    requires |draws| > 0 && c < |pop| && forall k :: 0 <= k < |draws| ==> draws[k] < |pop|
    ensures var d, d' := Drawn(pop, draws), Drawn(pop, draws + [c]);
      && d'[..|draws|] == d
      && BestIndex(d') == if d[BestIndex(d)].fitness < pop[c].fitness then |draws| else BestIndex(d)
  {
    var d' := Drawn(pop, draws + [c]);
    assert d'[..|draws|] == Drawn(pop, draws);
  }

  /** The number of positions the pairwise crossover visits: the population size rounded down
      to an even number. */
  function PairedPrefix(n: int): (p: nat)
    ensures n <= 0 ==> p == 0
    ensures n > 0 ==> p <= n < p + 2 && p % 2 == 0
  {
    if n <= 0 then 0 else n - n % 2
  }

  /** The pair (i, i+1) was either left alone or replaced by the two children of the old pair. */
  predicate PairStep(before: seq<StrategyGene>, after: seq<StrategyGene>, i: nat)
    requires i + 1 < |before| && |after| == |before|
  {
    || (after[i] == before[i] && after[i + 1] == before[i + 1])
    || (IsChildOf(after[i], before[i], before[i + 1]) && IsChildOf(after[i + 1], before[i + 1], before[i]))
  }

  /** The pairs below i, rewritten earlier, and the pair at i, rewritten now from untouched
      members, are all steps from the original population. */
  lemma PairStepsCarryOver(orig: seq<StrategyGene>, before: seq<StrategyGene>, after: seq<StrategyGene>, i: nat)
    requires |before| == |orig| && |after| == |orig| && i + 1 < |orig| && i % 2 == 0
    requires forall j :: 0 <= j < i && j % 2 == 0 ==> PairStep(orig, before, j)
    requires forall k :: i <= k < |orig| ==> before[k] == orig[k]
    requires PairStep(before, after, i)
    requires forall k :: 0 <= k < |after| && k != i && k != i + 1 ==> after[k] == before[k]
    ensures forall j :: 0 <= j < i + 2 && j % 2 == 0 ==> PairStep(orig, after, j)
  {
    forall j | 0 <= j < i + 2 && j % 2 == 0
      ensures PairStep(orig, after, j)
    {
      if j < i {
        assert PairStep(orig, before, j);
        assert after[j] == before[j] && after[j + 1] == before[j + 1];
      } else {
        assert j == i;
      }
    }
  }

  predicate AllInDomain(pop: seq<StrategyGene>)
  {
    forall k :: 0 <= k < |pop| ==> InDomain(pop[k])
  }

  const DefaultPopulationSize: int := 50
  const DefaultGenerations: int := 100
  const DefaultMutationRate: real := 0.1
  const DefaultCrossoverRate: real := 0.8

  class GeneticAlgorithm {
    const data: seq<Bar>
    var population: seq<StrategyGene>
    var best: StrategyGene
    var bestFitness: Fitness.FitnessResult
    const populationSize: int
    const generations: int
    const mutationRate: real
    const crossoverRate: real
    const rng: Rng

    /** Every gene held, the best one included, lies in the sampling domain. */
    ghost predicate Valid()
      reads this
    {
      InDomain(best) && AllInDomain(population)
    }

    /** The population size `initializePopulation` produces. */
    function PopulationCount(): nat
    {
      if populationSize > 0 then populationSize else 0
    }

    /** The random-device seed is the parameter `seed`. */
    constructor (data: seq<Bar>, seed: int, populationSize: int := DefaultPopulationSize,
                 generations: int := DefaultGenerations, mutationRate: real := DefaultMutationRate,
                 crossoverRate: real := DefaultCrossoverRate)
      ensures Valid()
      ensures this.data == data && this.populationSize == populationSize && this.generations == generations
      ensures this.mutationRate == mutationRate && this.crossoverRate == crossoverRate
      ensures population == [] && best == DefaultGene && bestFitness == Fitness.DefaultFitnessResult
      ensures fresh(rng)
    {
      this.data := data;
      this.populationSize := populationSize;
      this.generations := generations;
      this.mutationRate := mutationRate;
      this.crossoverRate := crossoverRate;
      population := [];
      best := DefaultGene;
      bestFitness := Fitness.DefaultFitnessResult;
      rng := new Rng(seed);
      DefaultGeneInDomain();
    }

    function BestStrategy(): StrategyGene
      reads this
    {
      best
    }

    /** `initializePopulation`: `populationSize` fresh random genes. */
    method InitializePopulation()
      requires Valid()
      modifies this, rng
      ensures Valid() && |population| == PopulationCount()
      ensures forall k :: 0 <= k < |population| ==> population[k].fitness == 0.0
      ensures best == old(best) && bestFitness == old(bestFitness)
    {
      population := [];
      var i := 0;
      while i < populationSize
        invariant 0 <= i <= PopulationCount() && |population| == i
        invariant Valid() && best == old(best) && bestFitness == old(bestFitness)
        invariant forall k :: 0 <= k < |population| ==> population[k].fitness == 0.0
      {
        var gene := RandomGene(rng);
        population := population + [gene];
        i := i + 1;
      }
    }

    /** `evaluatePopulation`: each gene's fitness becomes its evaluation's score; no other field
        of any gene changes. */
    method EvaluatePopulation()
      requires Valid() && PositiveCloses(data)
      modifies this
      ensures Valid() && |population| == |old(population)|
      ensures forall k :: 0 <= k < |population| ==> population[k] == old(population)[k].(fitness := population[k].fitness)
      ensures best == old(best) && bestFitness == old(bestFitness)
    {
      for k := 0 to |population|
        invariant Valid() && |population| == |old(population)|
        invariant forall j :: 0 <= j < |population| ==> population[j] == old(population)[j].(fitness := population[j].fitness)
        invariant best == old(best) && bestFitness == old(bestFitness)
      {
        Fitness.DomainIsEvaluable(population[k], data);
        var result := Fitness.EvaluateFitness(population[k], data);
        population := population[k := population[k].(fitness := result.fitnessScore)];
      }
    }

    /** One tournament of `selectParents`: the fittest of three draws, the first draw winning ties.
        `draws` are the indices drawn, in order. */
    method Tournament() returns (winner: nat, ghost draws: seq<nat>)
      requires 0 < populationSize <= |population|
      modifies rng
      ensures |draws| == 3 && forall k :: 0 <= k < 3 ==> draws[k] < populationSize
      ensures winner == draws[BestIndex(Drawn(population, draws))]
    {
      var bestIdx := rng.NextInt(0, populationSize - 1);
      draws := [bestIdx];
      for j := 0 to 2
        invariant |draws| == j + 1 && forall k :: 0 <= k < |draws| ==> draws[k] < populationSize
        invariant bestIdx == draws[BestIndex(Drawn(population, draws))]
      {
        var candidate := rng.NextInt(0, populationSize - 1);
        DrawnSnoc(population, draws, candidate);
        if population[candidate].fitness > population[bestIdx].fitness {
          bestIdx := candidate;
        }
        draws := draws + [candidate];
      }
      winner := bestIdx;
    }

    /** `selectParents`: `populationSize` tournament winners, each a copy of a current member. */
    method SelectParents()
      requires Valid() && populationSize <= |population|
      modifies this, rng
      ensures Valid() && |population| == PopulationCount()
      ensures forall i :: 0 <= i < |population| ==> population[i] in old(population)
      ensures best == old(best) && bestFitness == old(bestFitness)
    {
      var next := [];
      var i := 0;
      while i < populationSize
        invariant 0 <= i <= PopulationCount() && |next| == i
        invariant forall k :: 0 <= k < |next| ==> next[k] in population
        invariant population == old(population) && best == old(best) && bestFitness == old(bestFitness)
      {
        var winner, _ := Tournament();
        next := next + [population[winner]];
        i := i + 1;
      }
      population := next;
    }

    /** `crossover`: each pair (i, i+1) with i even is, on a draw below the crossover rate,
        replaced by the two children of the pair; a last member without a partner is untouched. */
    method Crossover()
      requires Valid() && populationSize <= |population|
      modifies this, rng
      ensures Valid() && |population| == |old(population)|
      ensures forall i :: 0 <= i < PairedPrefix(populationSize) && i % 2 == 0 ==> PairStep(old(population), population, i)
      ensures forall k :: PairedPrefix(populationSize) <= k < |population| ==> population[k] == old(population)[k]
      ensures best == old(best) && bestFitness == old(bestFitness)
    {
      var i := 0;
      while i < populationSize - 1
        invariant 0 <= i <= PairedPrefix(populationSize) && i % 2 == 0
        invariant Valid() && |population| == |old(population)|
        invariant forall j :: 0 <= j < i && j % 2 == 0 ==> PairStep(old(population), population, j)
        invariant forall k :: i <= k < |population| ==> population[k] == old(population)[k]
        invariant best == old(best) && bestFitness == old(bestFitness)
      {
        ghost var before := population;
        CrossoverPair(i);
        PairStepsCarryOver(old(population), before, population, i);
        i := i + 2;
      }
    }

    /** The body of the crossover loop for the pair (i, i+1). */
    method CrossoverPair(i: nat)
      requires Valid() && i + 1 < |population|
      modifies this, rng
      ensures Valid() && |population| == |old(population)|
      ensures PairStep(old(population), population, i)
      ensures forall k :: 0 <= k < |population| && k != i && k != i + 1 ==> population[k] == old(population)[k]
      ensures best == old(best) && bestFitness == old(bestFitness)
    {
      var u := rng.NextReal(0.0, 1.0);
      if u < crossoverRate {
        var child1 := CrossoverGene(population[i], population[i + 1], rng);
        var child2 := CrossoverGene(population[i + 1], population[i], rng);
        CrossoverPreservesDomain(child1, population[i], population[i + 1]);
        CrossoverPreservesDomain(child2, population[i + 1], population[i]);
        population := population[i := child1][i + 1 := child2];
      }
    }

    /** `mutate`: every gene mutated in place at the mutation rate. */
    method Mutate()
      requires Valid()
      modifies this, rng
      ensures Valid() && |population| == |old(population)|
      ensures forall k :: 0 <= k < |population| ==> IsMutationOf(old(population)[k], population[k])
      ensures mutationRate <= 0.0 ==> population == old(population)
      ensures best == old(best) && bestFitness == old(bestFitness)
    {
      for k := 0 to |population|
        invariant Valid() && |population| == |old(population)|
        invariant forall j :: 0 <= j < k ==> IsMutationOf(old(population)[j], population[j])
        invariant forall j :: k <= j < |population| ==> population[j] == old(population)[j]
        invariant mutationRate <= 0.0 ==> population == old(population)
        invariant best == old(best) && bestFitness == old(bestFitness)
      {
        var m := MutateGene(population[k], rng, mutationRate);
        MutationPreservesDomain(population[k], m);
        population := population[k := m];
      }
    }

    /** `elitism`: the first fittest member is overwritten by the best gene found so far when
        that one is strictly fitter; afterwards some member is at least as fit as the best. */
    method Elitism()
      requires Valid() && |population| > 0
      modifies this
      ensures Valid() && |population| == |old(population)|
      ensures var m := BestIndex(old(population));
        population == if best.fitness > old(population)[m].fitness then old(population)[m := best] else old(population)
      ensures forall k :: 0 <= k < |population| && k != BestIndex(old(population)) ==> population[k] == old(population)[k]
      ensures population[BestIndex(population)].fitness >= best.fitness
      ensures best == old(best) && bestFitness == old(bestFitness)
    {
      var m := MaxElement(population);
      if best.fitness > population[m].fitness {
        population := population[m := best];
      }
      assert population[BestIndex(population)].fitness >= population[m].fitness;
    }

    /** `evolve`: a fresh population, then `generations` rounds of evaluation, best tracking,
        selection, crossover, mutation and elitism. The best fitness never decreases, and after
        at least one round the population holds a member at least as fit as the best. */
    method Evolve() returns (pop: seq<StrategyGene>)
      requires Valid() && PositiveCloses(data)
      requires populationSize > 0 || generations <= 0
      modifies this, rng
      ensures Valid() && pop == population && |population| == PopulationCount()
      ensures best.fitness >= old(best.fitness)
      ensures generations > 0 ==> population[BestIndex(population)].fitness >= best.fitness
    {
      InitializePopulation();
      var generation := 0;
      while generation < generations
        invariant Valid() && |population| == PopulationCount()
        invariant best.fitness >= old(best.fitness)
        invariant generation > 0 ==> populationSize > 0
        invariant generation > 0 ==> population[BestIndex(population)].fitness >= best.fitness
      {
        Generation();
        generation := generation + 1;
      }
      pop := population;
    }

    /** One round of the `evolve` loop. */
    method Generation()
      requires Valid() && PositiveCloses(data) && populationSize > 0 && |population| == populationSize
      modifies this, rng
      ensures Valid() && |population| == populationSize
      ensures best.fitness >= old(best.fitness)
      ensures population[BestIndex(population)].fitness >= best.fitness
    {
      EvaluatePopulation();
      var bestInGen := MaxElement(population);
      if population[bestInGen].fitness > best.fitness {
        best := population[bestInGen];
        Fitness.DomainIsEvaluable(best, data);
        bestFitness := Fitness.EvaluateFitness(best, data);
      }
      SelectParents();
      Crossover();
      Mutate();
      Elitism();
    }
  }
}
