/**
 * The random source of the genetic optimiser. The C++ draws from a seeded
 * `std::mt19937` through `uniform_int_distribution` and `uniform_real_distribution`;
 * here an object whose draws promise only to fall in the requested range, so every
 * property proved about their callers holds for every sequence of draws.
 * The body is a linear congruential step, standing in for the Mersenne Twister.
 */
module Randomness {
  const Modulus: int := 0x8000_0000

  lemma FractionBelowOne(n: int, d: int)
    requires 0 <= n < d
    ensures 0.0 <= n as real / d as real < 1.0
  {
  }

  /** The fraction u of a positive width a; it lies in [0, a) for u in [0, 1). */
  function Scaled(a: real, u: real): (p: real)
    requires a > 0.0 && 0.0 <= u < 1.0
    ensures 0.0 <= p < a
  {
    var b := 1.0 - u;
    assert a * b > 0.0;
    assert a * b + a * u == a * (b + u);
    a * u
  }

  class Rng {
    var state: int

    constructor (seed: int)
    {
      state := seed % Modulus;
    }

    method Advance()
      modifies this
    {
      state := (state * 1103515245 + 12345) % Modulus;
    }

    /** `std::uniform_int_distribution<int>(lo, hi)(rng)`: a value in [lo, hi]. */
    method NextInt(lo: int, hi: int) returns (r: int)
      requires lo <= hi
      modifies this
      ensures lo <= r <= hi
    {
      Advance();
      r := lo + state % (hi - lo + 1);
    }

    /** `std::uniform_real_distribution<double>(lo, hi)(rng)`: a value in [lo, hi). */
    method NextReal(lo: real, hi: real) returns (r: real)
      requires lo < hi
      modifies this
      ensures lo <= r < hi
    {
      Advance();
      var u := (state % Modulus) as real / Modulus as real;
      FractionBelowOne(state % Modulus, Modulus);
      r := lo + Scaled(hi - lo, u);
    }
  }
}

/**
 * The parameter set of an evolved strategy (`StrategyGene` in include/GeneticStrategy.hpp)
 * and its three random operators from src/GeneticStrategy.cpp: sampling, mutation and
 * uniform crossover. Each numeric field has a domain, the range its distribution draws from.
 */
module Genes {
  import opened Randomness

  datatype IndicatorType = SmaIndicator | EmaIndicator | RsiIndicator | MacdIndicator
                         | BbIndicator | AtrIndicator | StochIndicator | AdxIndicator
  datatype EntryCondition = CrossAbove | CrossBelow | Above | Below | InsideBb | OutsideBb
  datatype ExitCondition = FixedRr | TrailingStop | TimeBased | IndicatorSignal

  /** `static_cast<IndicatorType>(k)`. */
  function IndicatorFromIndex(k: int): IndicatorType
    requires 0 <= k <= 7
  {
    [SmaIndicator, EmaIndicator, RsiIndicator, MacdIndicator, BbIndicator, AtrIndicator, StochIndicator, AdxIndicator][k]
  }

  /** `static_cast<int>(t)`: the declaration order. */
  function IndicatorIndex(t: IndicatorType): int
  {
    match t
    case SmaIndicator => 0 case EmaIndicator => 1 case RsiIndicator => 2 case MacdIndicator => 3
    case BbIndicator => 4 case AtrIndicator => 5 case StochIndicator => 6 case AdxIndicator => 7
  }

  function EntryFromIndex(k: int): EntryCondition
    requires 0 <= k <= 5
  {
    [CrossAbove, CrossBelow, Above, Below, InsideBb, OutsideBb][k]
  }

  function EntryIndex(c: EntryCondition): int
  {
    match c
    case CrossAbove => 0 case CrossBelow => 1 case Above => 2
    case Below => 3 case InsideBb => 4 case OutsideBb => 5
  }

  function ExitFromIndex(k: int): ExitCondition
    requires 0 <= k <= 3
  {
    [FixedRr, TrailingStop, TimeBased, IndicatorSignal][k]
  }

  function ExitIndex(c: ExitCondition): int
  {
    match c
    case FixedRr => 0 case TrailingStop => 1 case TimeBased => 2 case IndicatorSignal => 3
  }

  /** The integer ranges drawn for the enums, 0..7, 0..5 and 0..3, name each member exactly once. */
  lemma EnumRangesMatchMembers(k: int, t: IndicatorType, e: EntryCondition, x: ExitCondition)
    ensures 0 <= k <= 7 ==> IndicatorIndex(IndicatorFromIndex(k)) == k
    ensures 0 <= IndicatorIndex(t) <= 7 && IndicatorFromIndex(IndicatorIndex(t)) == t
    ensures 0 <= k <= 5 ==> EntryIndex(EntryFromIndex(k)) == k
    ensures 0 <= EntryIndex(e) <= 5 && EntryFromIndex(EntryIndex(e)) == e
    ensures 0 <= k <= 3 ==> ExitIndex(ExitFromIndex(k)) == k
    ensures 0 <= ExitIndex(x) <= 3 && ExitFromIndex(ExitIndex(x)) == x
  {
  }

  datatype StrategyGene = StrategyGene(
    primaryIndicator: IndicatorType,
    secondaryIndicator: IndicatorType,
    primaryPeriod: int,
    secondaryPeriod: int,
    primaryThreshold: real,
    secondaryThreshold: real,
    entryCondition: EntryCondition,
    exitCondition: ExitCondition,
    riskRewardRatio: real,
    stopLossPct: real,
    takeProfitPct: real,
    maxHoldTime: int,
    positionSizePct: real,
    fitness: real)

  /** A default-constructed `StrategyGene`. */
  const DefaultGene: StrategyGene :=
    StrategyGene(SmaIndicator, RsiIndicator, 20, 14, 0.0, 30.0, CrossAbove, FixedRr, 2.0, 0.02, 0.04, 48, 0.1, 0.0)

  // Field domains: the ranges of the distributions in `random` and `mutate`.
  predicate PeriodInDomain(p: int) { 5 <= p <= 200 }
  predicate ThresholdInDomain(x: real) { -50.0 <= x < 50.0 }
  predicate RiskRewardInDomain(x: real) { 1.0 <= x < 10.0 }
  predicate PctInDomain(x: real) { 0.005 <= x < 0.1 }
  predicate HoldInDomain(h: int) { 1 <= h <= 168 }
  predicate SizeInDomain(x: real) { 0.01 <= x < 0.5 }

  /** Every numeric field lies in its domain (the enum fields always do). */
  predicate InDomain(g: StrategyGene)
  {
    && PeriodInDomain(g.primaryPeriod) && PeriodInDomain(g.secondaryPeriod)
    && ThresholdInDomain(g.primaryThreshold) && ThresholdInDomain(g.secondaryThreshold)
    && RiskRewardInDomain(g.riskRewardRatio)
    && PctInDomain(g.stopLossPct) && PctInDomain(g.takeProfitPct)
    && HoldInDomain(g.maxHoldTime)
    && SizeInDomain(g.positionSizePct)
  }

  /** The default gene lies in the domain the operators draw from. */
  lemma DefaultGeneInDomain()
    ensures InDomain(DefaultGene) && DefaultGene.fitness == 0.0
  {
  }

  /** m is g with some fields redrawn: each numeric field is g's or a value of its domain,
      and the fitness is g's. */
  predicate IsMutationOf(g: StrategyGene, m: StrategyGene)
  {
    && (m.primaryPeriod == g.primaryPeriod || PeriodInDomain(m.primaryPeriod))
    && (m.secondaryPeriod == g.secondaryPeriod || PeriodInDomain(m.secondaryPeriod))
    && (m.primaryThreshold == g.primaryThreshold || ThresholdInDomain(m.primaryThreshold))
    && (m.secondaryThreshold == g.secondaryThreshold || ThresholdInDomain(m.secondaryThreshold))
    && (m.riskRewardRatio == g.riskRewardRatio || RiskRewardInDomain(m.riskRewardRatio))
    && (m.stopLossPct == g.stopLossPct || PctInDomain(m.stopLossPct))
    && (m.takeProfitPct == g.takeProfitPct || PctInDomain(m.takeProfitPct))
    && (m.maxHoldTime == g.maxHoldTime || HoldInDomain(m.maxHoldTime))
    && (m.positionSizePct == g.positionSizePct || SizeInDomain(m.positionSizePct))
    && m.fitness == g.fitness
  }

  /** c takes every field from a or from b, and has fitness 0. */
  predicate IsChildOf(c: StrategyGene, a: StrategyGene, b: StrategyGene)
  {
    && (c.primaryIndicator == a.primaryIndicator || c.primaryIndicator == b.primaryIndicator)
    && (c.secondaryIndicator == a.secondaryIndicator || c.secondaryIndicator == b.secondaryIndicator)
    && (c.primaryPeriod == a.primaryPeriod || c.primaryPeriod == b.primaryPeriod)
    && (c.secondaryPeriod == a.secondaryPeriod || c.secondaryPeriod == b.secondaryPeriod)
    && (c.primaryThreshold == a.primaryThreshold || c.primaryThreshold == b.primaryThreshold)
    && (c.secondaryThreshold == a.secondaryThreshold || c.secondaryThreshold == b.secondaryThreshold)
    && (c.entryCondition == a.entryCondition || c.entryCondition == b.entryCondition)
    && (c.exitCondition == a.exitCondition || c.exitCondition == b.exitCondition)
    && (c.riskRewardRatio == a.riskRewardRatio || c.riskRewardRatio == b.riskRewardRatio)
    && (c.stopLossPct == a.stopLossPct || c.stopLossPct == b.stopLossPct)
    && (c.takeProfitPct == a.takeProfitPct || c.takeProfitPct == b.takeProfitPct)
    && (c.maxHoldTime == a.maxHoldTime || c.maxHoldTime == b.maxHoldTime)
    && (c.positionSizePct == a.positionSizePct || c.positionSizePct == b.positionSizePct)
    && c.fitness == 0.0
  }

  /** `StrategyGene::random`: draws the fields in declaration order. */
  method RandomGene(rng: Rng) returns (gene: StrategyGene)
    modifies rng
    ensures InDomain(gene) && gene.fitness == 0.0
  {
    gene := DefaultGene;
    var k := rng.NextInt(0, 7);
    gene := gene.(primaryIndicator := IndicatorFromIndex(k));
    k := rng.NextInt(0, 7);
    gene := gene.(secondaryIndicator := IndicatorFromIndex(k));
    var p := rng.NextInt(5, 200);
    gene := gene.(primaryPeriod := p);
    p := rng.NextInt(5, 200);
    gene := gene.(secondaryPeriod := p);
    var x := rng.NextReal(-50.0, 50.0);
    gene := gene.(primaryThreshold := x);
    x := rng.NextReal(-50.0, 50.0);
    gene := gene.(secondaryThreshold := x);
    k := rng.NextInt(0, 5);
    gene := gene.(entryCondition := EntryFromIndex(k));
    k := rng.NextInt(0, 3);
    gene := gene.(exitCondition := ExitFromIndex(k));
    x := rng.NextReal(1.0, 10.0);
    gene := gene.(riskRewardRatio := x);
    x := rng.NextReal(0.005, 0.1);
    gene := gene.(stopLossPct := x);
    x := rng.NextReal(0.005, 0.1);
    gene := gene.(takeProfitPct := x);
    var h := rng.NextInt(1, 168);
    gene := gene.(maxHoldTime := h);
    x := rng.NextReal(0.01, 0.5);
    gene := gene.(positionSizePct := x);
  }

  /** One line of `StrategyGene::mutate`: a draw from [0, 1) below `rate` redraws the value
      from [lo, hi]. */
  method MaybeRedrawInt(v: int, lo: int, hi: int, rng: Rng, rate: real) returns (r: int)
    requires lo <= hi
    modifies rng
    ensures r == v || lo <= r <= hi
    ensures rate <= 0.0 ==> r == v
  {
    r := v;
    var u := rng.NextReal(0.0, 1.0);
    if u < rate {
      r := rng.NextInt(lo, hi);
    }
  }

  /** As `MaybeRedrawInt`, for a field drawn from [lo, hi). */
  method MaybeRedrawReal(v: real, lo: real, hi: real, rng: Rng, rate: real) returns (r: real)
    requires lo < hi
    modifies rng
    ensures r == v || lo <= r < hi
    ensures rate <= 0.0 ==> r == v
  {
    r := v;
    var u := rng.NextReal(0.0, 1.0);
    if u < rate {
      r := rng.NextReal(lo, hi);
    }
  }

  /** The enum lines of `StrategyGene::mutate`: the member is redrawn as its integer index. */
  method MaybeRedrawIndicator(t: IndicatorType, rng: Rng, rate: real) returns (r: IndicatorType)
    modifies rng
    ensures rate <= 0.0 ==> r == t
  {
    EnumRangesMatchMembers(0, t, CrossAbove, FixedRr);
    var k := MaybeRedrawInt(IndicatorIndex(t), 0, 7, rng, rate);
    r := IndicatorFromIndex(k);
  }

  method MaybeRedrawEntry(c: EntryCondition, rng: Rng, rate: real) returns (r: EntryCondition)
    modifies rng
    ensures rate <= 0.0 ==> r == c
  {
    EnumRangesMatchMembers(0, SmaIndicator, c, FixedRr);
    var k := MaybeRedrawInt(EntryIndex(c), 0, 5, rng, rate);
    r := EntryFromIndex(k);
  }

  method MaybeRedrawExit(c: ExitCondition, rng: Rng, rate: real) returns (r: ExitCondition)
    modifies rng
    ensures rate <= 0.0 ==> r == c
  {
    EnumRangesMatchMembers(0, SmaIndicator, CrossAbove, c);
    var k := MaybeRedrawInt(ExitIndex(c), 0, 3, rng, rate);
    r := ExitFromIndex(k);
  }

  /** `StrategyGene::mutate`: each field, in declaration order, is redrawn when a draw from
      [0, 1) falls below `rate`. The C++ updates the gene in place; here the updated gene is
      returned. The enum fields are redrawn as their integer index. */
  method MutateGene(g: StrategyGene, rng: Rng, rate: real) returns (m: StrategyGene)
    modifies rng
    ensures IsMutationOf(g, m)
    ensures rate <= 0.0 ==> m == g
  {
    var primaryIndicator := MaybeRedrawIndicator(g.primaryIndicator, rng, rate);
    var secondaryIndicator := MaybeRedrawIndicator(g.secondaryIndicator, rng, rate);
    var primaryPeriod := MaybeRedrawInt(g.primaryPeriod, 5, 200, rng, rate);
    var secondaryPeriod := MaybeRedrawInt(g.secondaryPeriod, 5, 200, rng, rate);
    var primaryThreshold := MaybeRedrawReal(g.primaryThreshold, -50.0, 50.0, rng, rate);
    var secondaryThreshold := MaybeRedrawReal(g.secondaryThreshold, -50.0, 50.0, rng, rate);
    var entryCondition := MaybeRedrawEntry(g.entryCondition, rng, rate);
    var exitCondition := MaybeRedrawExit(g.exitCondition, rng, rate);
    var riskRewardRatio := MaybeRedrawReal(g.riskRewardRatio, 1.0, 10.0, rng, rate);
    var stopLossPct := MaybeRedrawReal(g.stopLossPct, 0.005, 0.1, rng, rate);
    var takeProfitPct := MaybeRedrawReal(g.takeProfitPct, 0.005, 0.1, rng, rate);
    var maxHoldTime := MaybeRedrawInt(g.maxHoldTime, 1, 168, rng, rate);
    var positionSizePct := MaybeRedrawReal(g.positionSizePct, 0.01, 0.5, rng, rate);
    m := StrategyGene(primaryIndicator, secondaryIndicator, primaryPeriod, secondaryPeriod,
                      primaryThreshold, secondaryThreshold, entryCondition, exitCondition,
                      riskRewardRatio, stopLossPct, takeProfitPct, maxHoldTime, positionSizePct, g.fitness);
  }

  /** One line of `StrategyGene::crossover`: `x` when a draw from [0, 1) is below 0.5, else `y`. */
  method Pick<T>(x: T, y: T, rng: Rng) returns (z: T)
    modifies rng
    ensures z == x || z == y
  {
    var u := rng.NextReal(0.0, 1.0);
    z := if u < 0.5 then x else y;
  }

  /** `StrategyGene::crossover`: uniform crossover of the receiver `a` with `b`, field by field in
      declaration order, into a default-constructed child; the parents are values and stay unchanged. */
  method CrossoverGene(a: StrategyGene, b: StrategyGene, rng: Rng) returns (child: StrategyGene)
    modifies rng
    ensures IsChildOf(child, a, b)
  {
    child := DefaultGene;
    var t := Pick(a.primaryIndicator, b.primaryIndicator, rng);
    child := child.(primaryIndicator := t);
    t := Pick(a.secondaryIndicator, b.secondaryIndicator, rng);
    child := child.(secondaryIndicator := t);
    var p := Pick(a.primaryPeriod, b.primaryPeriod, rng);
    child := child.(primaryPeriod := p);
    p := Pick(a.secondaryPeriod, b.secondaryPeriod, rng);
    child := child.(secondaryPeriod := p);
    var x := Pick(a.primaryThreshold, b.primaryThreshold, rng);
    child := child.(primaryThreshold := x);
    x := Pick(a.secondaryThreshold, b.secondaryThreshold, rng);
    child := child.(secondaryThreshold := x);
    var e := Pick(a.entryCondition, b.entryCondition, rng);
    child := child.(entryCondition := e);
    var c := Pick(a.exitCondition, b.exitCondition, rng);
    child := child.(exitCondition := c);
    x := Pick(a.riskRewardRatio, b.riskRewardRatio, rng);
    child := child.(riskRewardRatio := x);
    x := Pick(a.stopLossPct, b.stopLossPct, rng);
    child := child.(stopLossPct := x);
    x := Pick(a.takeProfitPct, b.takeProfitPct, rng);
    child := child.(takeProfitPct := x);
    p := Pick(a.maxHoldTime, b.maxHoldTime, rng);
    child := child.(maxHoldTime := p);
    x := Pick(a.positionSizePct, b.positionSizePct, rng);
    child := child.(positionSizePct := x);
  }

  /** Mutation keeps a gene inside the domain. */
  lemma MutationPreservesDomain(g: StrategyGene, m: StrategyGene)
    requires InDomain(g) && IsMutationOf(g, m)
    ensures InDomain(m)
  {
  }

  /** A child of two in-domain parents is in the domain. */
  lemma CrossoverPreservesDomain(c: StrategyGene, a: StrategyGene, b: StrategyGene)
    requires InDomain(a) && InDomain(b) && IsChildOf(c, a, b)
    ensures InDomain(c)
  {
  }

  /** Crossing a gene with itself reproduces it, with the fitness reset. */
  lemma CrossoverWithSelf(c: StrategyGene, a: StrategyGene)
    requires IsChildOf(c, a, a)
    ensures c == a.(fitness := 0.0)
  {
  }
}
